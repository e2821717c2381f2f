/** The cookie helpers of `lib/cookies.ts`: a writer that builds a
    Set-Cookie style line (`name=value` followed by attributes, as in
    section 4.1.1 of RFC 6265) and a reader that looks a name up in a
    Cookie header (`name=value; name2=value2`, section 4.2.1 of RFC 6265).
    The browser's cookie jar is not modelled: a written line and a read
    header are plain strings. */
module Cookies {
  import opened Common
  import opened Foreign

  datatype SameSite = Strict | Lax | NoRestriction

  function SameSiteText(s: SameSite): string {
    match s
    case Strict => "strict"
    case Lax => "lax"
    case NoRestriction => "none"
  }

  /** `CookieOptions`. `expires` is the date's `toUTCString()` text; an
      empty `path` or `domain` counts as not given, as the code's truthiness
      tests do. */
  datatype CookieOptions = CookieOptions(
    expires: Option<string>, path: string, domain: string, secure: bool, sameSite: Option<SameSite>)

  const NoOptions := CookieOptions(None, "", "", false, None)

  // ---------------------------------------------------------------------
  // Writing
  // ---------------------------------------------------------------------

  function ExpiresAttr(o: CookieOptions): string {
    if o.expires.Some? then "; expires=" + o.expires.value else ""
  }

  /** The path written: the given one, or "/". */
  function PathOf(o: CookieOptions): string {
    if o.path != "" then o.path else "/"
  }

  function PathAttr(o: CookieOptions): string {
    if o.path != "" then "; path=" + o.path else "; path=/"
  }

  function DomainAttr(o: CookieOptions): string {
    if o.domain != "" then "; domain=" + o.domain else ""
  }

  function SecureAttr(o: CookieOptions): string {
    if o.secure then "; secure" else ""
  }

  function SameSiteAttr(o: CookieOptions): string {
    if o.sameSite.Some? then "; samesite=" + SameSiteText(o.sameSite.value) else ""
  }

  /** The line `setCookie` assigns to `document.cookie`: the pair, then
      the attributes in their fixed order. */
  function CookieLine(name: string, value: string, o: CookieOptions, uri: UriCodec): string {
    name + "=" + uri.encode(value) + ExpiresAttr(o) + PathAttr(o) + DomainAttr(o) + SecureAttr(o) + SameSiteAttr(o)
  }

  /** `setCookie`: the line grown piece by piece with `+=`. */
  method SetCookie(name: string, value: string, o: CookieOptions, uri: UriCodec) returns (cookieString: string)
    ensures cookieString == CookieLine(name, value, o, uri)
  {
    cookieString := name + "=" + uri.encode(value);
    ghost var line := cookieString;
    if o.expires.Some? {
      cookieString := cookieString + ("; expires=" + o.expires.value);
    }
    line := line + ExpiresAttr(o);
    assert cookieString == line;
    if o.path != "" {
      cookieString := cookieString + ("; path=" + o.path);
    } else {
      cookieString := cookieString + "; path=/";
    }
    line := line + PathAttr(o);
    assert cookieString == line;
    if o.domain != "" {
      cookieString := cookieString + ("; domain=" + o.domain);
    }
    line := line + DomainAttr(o);
    assert cookieString == line;
    if o.secure {
      cookieString := cookieString + "; secure";
    }
    line := line + SecureAttr(o);
    assert cookieString == line;
    if o.sameSite.Some? {
      cookieString := cookieString + ("; samesite=" + SameSiteText(o.sameSite.value));
    }
    line := line + SameSiteAttr(o);
    assert cookieString == line;
  }

  /** The line starts with the name, '=' and the encoded value, and the
      attributes begin with the ';' that ends the pair. */
  lemma CookieLineShape(name: string, value: string, o: CookieOptions, uri: UriCodec)
    ensures var pair := name + "=" + uri.encode(value);
      |pair| < |CookieLine(name, value, o, uri)| && CookieLine(name, value, o, uri)[..|pair|] == pair &&
      CookieLine(name, value, o, uri)[|pair|] == ';'
  {
    var pair := name + "=" + uri.encode(value);
    var x := pair + ExpiresAttr(o) + PathAttr(o);
    assert |pair| < |x| && x[..|pair|] == pair && x[|pair|] == ';' by {
      if o.expires.Some? {
        assert (pair + ExpiresAttr(o))[|pair|] == ';';
      } else {
        assert x == pair + PathAttr(o);
      }
    }
    ExtendKeeps(x, |pair|, DomainAttr(o));
    ExtendKeeps(x + DomainAttr(o), |pair|, SecureAttr(o));
    ExtendKeeps(x + DomainAttr(o) + SecureAttr(o), |pair|, SameSiteAttr(o));
  }

  /** With no option set the line is the pair and the default path only. */
  lemma DefaultLine(name: string, value: string, uri: UriCodec)
    ensures CookieLine(name, value, NoOptions, uri) == name + "=" + uri.encode(value) + "; path=/"
  {
  }

  /** With every option set the attributes come in the order expires,
      path, domain, secure, samesite. */
  lemma FullLine(name: string, value: string, e: string, p: string, d: string, s: SameSite, uri: UriCodec)
    requires p != "" && d != ""
    ensures CookieLine(name, value, CookieOptions(Some(e), p, d, true, Some(s)), uri) ==
            name + "=" + uri.encode(value) + ("; expires=" + e) + ("; path=" + p) + ("; domain=" + d) +
            "; secure" + ("; samesite=" + SameSiteText(s))
  {
  }

  /** The path attribute is always present, as "/" when no path is given. */
  lemma PathAlwaysEmitted(name: string, value: string, o: CookieOptions, uri: UriCodec)
    ensures Contains(CookieLine(name, value, o, uri), "; path=" + PathOf(o))
  {
    var pre := name + "=" + uri.encode(value) + ExpiresAttr(o);
    var x := pre + PathAttr(o);
    assert PathAttr(o) == "; path=" + PathOf(o);
    assert x[|pre|..|pre| + |PathAttr(o)|] == PathAttr(o);
    ContainsAt(x, PathAttr(o), |pre|);
    ContainsAppend(x, PathAttr(o), DomainAttr(o));
    ContainsAppend(x + DomainAttr(o), PathAttr(o), SecureAttr(o));
    ContainsAppend(x + DomainAttr(o) + SecureAttr(o), PathAttr(o), SameSiteAttr(o));
  }

  /** Appending keeps what is already at a position. */
  lemma ExtendKeeps(x: string, k: nat, y: string)
    requires k < |x|
    ensures k < |x + y| && (x + y)[..k] == x[..k] && (x + y)[k] == x[k]
  {
  }

  // ---------------------------------------------------------------------
  // Reading
  // ---------------------------------------------------------------------

  /** What a lookup finds: a decoded value, nothing, or the `URIError` that
      `decodeURIComponent` throws on a malformed escape. */
  datatype Lookup = Found(value: string) | Missing | Malformed

  /** The name of a header segment: the text before the first '=' once the
      segment is trimmed. */
  function SegmentName(seg: string): string {
    Split(Trim(seg), '=')[0]
  }

  /** The raw value of a segment: the text between the first and the second
      '='; with no '=' at all the destructured value is `undefined`, which
      `decodeURIComponent` reads as the text "undefined". */
  function SegmentValue(seg: string): string {
    var parts := Split(Trim(seg), '=');
    if |parts| > 1 then parts[1] else "undefined"
  }

  function NamedAs(name: string): string -> bool {
    seg => SegmentName(seg) == name
  }

  function Decoded(text: string, uri: UriCodec): Lookup {
    match uri.decode(text)
    case Some(v) => Found(v)
    case None => Malformed
  }

  /** `getCookie`'s answer: the first segment carrying the name decides. */
  function CookieLookup(header: string, name: string, uri: UriCodec): (r: Lookup)
    ensures r == Missing <==> forall i :: 0 <= i < |Split(header, ';')| ==> SegmentName(Split(header, ';')[i]) != name
    ensures r != Missing ==>
              var segs := Split(header, ';');
              exists i :: 0 <= i < |segs| && SegmentName(segs[i]) == name &&
                          (forall j :: 0 <= j < i ==> SegmentName(segs[j]) != name) &&
                          r == Decoded(SegmentValue(segs[i]), uri)
  {
    match Find(NamedAs(name), Split(header, ';'))
    case None => Missing
    case Some(seg) => Decoded(SegmentValue(seg), uri)
  }

  /** `getCookie`: the segments are tried in order and the first whose name
      matches returns at once. */
  method GetCookie(header: string, name: string, uri: UriCodec) returns (r: Lookup)
    ensures r == CookieLookup(header, name, uri)
  {
    var cookies := Split(header, ';');
    var i := 0;
    while i < |cookies|
      invariant 0 <= i <= |cookies|
      invariant Find(NamedAs(name), cookies) == Find(NamedAs(name), cookies[i..])
    {
      var parts := Split(Trim(cookies[i]), '=');
      if parts[0] == name {
        r := Decoded(if |parts| > 1 then parts[1] else "undefined", uri);
        return;
      }
      assert cookies[i..][1..] == cookies[i + 1..];
      i := i + 1;
    }
    r := Missing;
  }

  /** A name a line can be read back by: non-empty, without the header's
      delimiters, and without white space at its ends (which `trim` would
      strip). */
  predicate PlainName(name: string) {
    name != [] && ';' !in name && '=' !in name && !IsWhitespace(name[0]) && !IsWhitespace(name[|name| - 1])
  }

  /** The first segment of a line is its pair. */
  lemma FirstSegmentIsPair(name: string, value: string, o: CookieOptions, uri: UriCodec)
    requires UriLawful(uri) && PlainName(name)
    ensures Split(CookieLine(name, value, o, uri), ';')[0] == name + "=" + uri.encode(value)
  {
    var pair := name + "=" + uri.encode(value);
    var line := CookieLine(name, value, o, uri);
    CookieLineShape(name, value, o, uri);
    assert ';' !in uri.encode(value);
    assert ';' !in pair;
    assert line == pair + [';'] + line[|pair| + 1..];
    SplitHead(pair, ';', line[|pair| + 1..]);
  }

  /** The pair is already trimmed, and splits on '=' into the name and the
      encoded value. */
  lemma PairSplits(name: string, value: string, uri: UriCodec)
    requires UriLawful(uri) && PlainName(name)
    ensures var enc := uri.encode(value);
      Trim(name + "=" + enc) == name + "=" + enc && Split(name + "=" + enc, '=') == [name, enc]
  {
    var enc := uri.encode(value);
    var pair := name + "=" + enc;
    assert pair[0] == name[0];
    assert !IsWhitespace(pair[|pair| - 1]) by {
      if enc != [] { assert pair[|pair| - 1] == enc[|enc| - 1]; } else { assert pair[|pair| - 1] == '='; }
    }
    TrimUntrimmed(pair);
    assert pair == name + ['='] + enc;
    SplitHead(name, '=', enc);
    assert IndexOf(pair, '=') == Some(|name|) by {
      assert pair[|name|] == '=' && pair[..|name|] == name;
    }
    assert pair[|name| + 1..] == enc;
    SplitNoSeparator(enc, '=');
  }

  /** Reading back a line written by `setCookie` yields the value written. */
  lemma SetThenGet(name: string, value: string, o: CookieOptions, uri: UriCodec)
    requires UriLawful(uri) && PlainName(name)
    ensures CookieLookup(CookieLine(name, value, o, uri), name, uri) == Found(value)
  {
    var segs := Split(CookieLine(name, value, o, uri), ';');
    FirstSegmentIsPair(name, value, o, uri);
    PairSplits(name, value, uri);
    assert SegmentName(segs[0]) == name;
    assert SegmentValue(segs[0]) == uri.encode(value);
    assert Find(NamedAs(name), segs) == Some(segs[0]);
  }

  /** A header without the name gives `null`. */
  lemma AbsentNameIsMissing(header: string, name: string, uri: UriCodec)
    requires forall seg :: seg in Split(header, ';') ==> SegmentName(seg) != name
    ensures CookieLookup(header, name, uri) == Missing
  {
    var segs := Split(header, ';');
    forall i | 0 <= i < |segs| ensures SegmentName(segs[i]) != name { assert segs[i] in segs; }
  }

  // ---------------------------------------------------------------------
  // Deleting, and the authentication pair
  // ---------------------------------------------------------------------

  const Epoch := "Thu, 01 Jan 1970 00:00:00 UTC"

  /** `deleteCookie(name, path = '/')`: the default applies only when no path
      is passed at all. */
  function DeleteLine(name: string, path: Option<string>): string {
    name + "=; expires=" + Epoch + "; path=" + (if path.Some? then path.value else "/")
  }

  /** Deleting writes exactly the line `setCookie` would write for an empty
      value that expired at the epoch, on the same path. */
  lemma DeleteIsExpiredEmptyCookie(name: string, path: Option<string>, uri: UriCodec)
    requires uri.encode("") == ""
    requires path.Some? ==> path.value != ""
    ensures DeleteLine(name, path) ==
            CookieLine(name, "", CookieOptions(Some(Epoch), if path.Some? then path.value else "/", "", false, None), uri)
  {
    var p := if path.Some? then path.value else "/";
    var o := CookieOptions(Some(Epoch), p, "", false, None);
    assert "=; expires=" == "=" + "; expires=";
    var pair := name + "=" + uri.encode("");
    assert pair == name + "=";
    assert pair + ExpiresAttr(o) == name + "=; expires=" + Epoch;
    assert PathAttr(o) == "; path=" + p;
  }

  /** `clearAuthCookies`: both cookies deleted on the root path. */
  function ClearAuthLines(): (r: seq<string>)
    ensures r == [DeleteLine("auth_user", None), DeleteLine("auth_token", None)]
    ensures forall i :: 0 <= i < |r| ==> Contains(r[i], "; path=/")
  {
    var lines := [DeleteLine("auth_user", None), DeleteLine("auth_token", None)];
    forall i | 0 <= i < 2 ensures Contains(lines[i], "; path=/") {
      var n := if i == 0 then "auth_user" else "auth_token";
      var pre := n + "=; expires=" + Epoch;
      assert lines[i] == pre + "; path=/";
      ContainsAt(lines[i], "; path=/", |pre|);
    }
    lines
  }

  /** The record `setAuthCookies` stores, as JSON, under "auth_user". */
  datatype CookieUser = CookieUser(name: string, email: string, token: string, role: string, isAdmin: bool)

  /** `setAuthCookies(u)` with `expires` the text of now plus 24 hours: the
      user record and the token, both on the root path. */
  function AuthLines(u: CookieUser, expires: string, json: JsonCodec<CookieUser>, uri: UriCodec): (r: seq<string>)
    ensures |r| == 2
  {
    var o := CookieOptions(Some(expires), "/", "", false, None);
    [CookieLine("auth_user", json.stringify(u), o, uri), CookieLine("auth_token", u.token, o, uri)]
  }

  /** `getAuthCookies`, given the header. */
  datatype AuthRead = NoSession | Session(user: CookieUser) | DecodeFailure

  function AuthCookies(header: string, json: JsonCodec<CookieUser>, uri: UriCodec): (r: AuthRead)
    ensures CookieLookup(header, "auth_user", uri) == Missing ==> r == NoSession
    ensures CookieLookup(header, "auth_user", uri) == Found("") ==> r == NoSession
    ensures r.Session? ==> exists text :: CookieLookup(header, "auth_user", uri) == Found(text) && json.parse(text) == Some(r.user)
    ensures var l := CookieLookup(header, "auth_user", uri);
      l.Found? && l.value != "" ==>
        r == (if json.parse(l.value).Some? then Session(json.parse(l.value).value) else NoSession)
    ensures CookieLookup(header, "auth_user", uri) == Malformed ==> r == DecodeFailure
  {
    match CookieLookup(header, "auth_user", uri)
    case Missing => NoSession
    case Malformed => DecodeFailure
    case Found(text) =>
      if text == "" then NoSession
      else match json.parse(text)
        case Some(u) => Session(u)
        case None => NoSession
  }

  lemma AuthNamesPlain()
    ensures PlainName("auth_user") && PlainName("auth_token")
  {
    assert "auth_user"[0] == 'a' && "auth_user"[8] == 'r';
    assert "auth_token"[0] == 'a' && "auth_token"[9] == 'n';
  }

  /** Reading the user line back gives the user that was stored. */
  lemma AuthUserRoundTrip(u: CookieUser, expires: string, json: JsonCodec<CookieUser>, uri: UriCodec)
    requires UriLawful(uri) && JsonLawful(json)
    ensures AuthCookies(AuthLines(u, expires, json, uri)[0], json, uri) == Session(u)
  {
    var o := CookieOptions(Some(expires), "/", "", false, None);
    var text := json.stringify(u);
    AuthNamesPlain();
    SetThenGet("auth_user", text, o, uri);
    assert json.parse(text) == Some(u) && text != "";
  }

  /** Reading the token line back gives the token. */
  lemma AuthTokenRoundTrip(u: CookieUser, expires: string, json: JsonCodec<CookieUser>, uri: UriCodec)
    requires UriLawful(uri)
    ensures CookieLookup(AuthLines(u, expires, json, uri)[1], "auth_token", uri) == Found(u.token)
  {
    AuthNamesPlain();
    SetThenGet("auth_token", u.token, CookieOptions(Some(expires), "/", "", false, None), uri);
  }
}
