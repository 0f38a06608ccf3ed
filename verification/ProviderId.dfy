/** Provider IDs of nodes: the two printers and the parser. */
module ProviderId {
  import opened Base
  import opened Strings

  datatype URL = URL(scheme: string, host: string, path: string)

  datatype ParseError = NotAURL | WrongScheme | WrongFormat

  const SCHEME := "nifcloud"
  const PREFIX := "nifcloud://"

  /** What the pattern ^i-[^/]*$ matches. */
  predicate IsUniqueID(s: string) {
    HasPrefix(s, "i-") && '/' !in s
  }

  // ---------------------------------------------------------------- printers

  /** The provider ID that goes into the metadata of a node. */
  function MetadataProviderID(zone: string, uniqueID: string): string {
    "nifcloud:///" + zone + "/" + uniqueID
  }

  /** The instance ID of a node, without a scheme. */
  function InstanceID(zone: string, uniqueID: string): string {
    "/" + zone + "/" + uniqueID
  }

  // ---------------------------------------------------------------- parser

  /** `parse` is the URL parser; see `SplitsSafeURLs` for what is needed of it. */
  function UniqueIDOf(providerID: string, parse: string -> Option<URL>): Result<string, ParseError> {
    var s := if HasPrefix(providerID, PREFIX) then providerID else PREFIX + "/" + "/" + providerID;
    match parse(s)
    case None => Err(NotAURL)
    case Some(url) =>
      if url.scheme != SCHEME then Err(WrongScheme)
      else
        OfTokens(SplitOn(Trim(url.path, '/'), '/'))
  }

  /** The ID is the last of one or two tokens, if it has the form of one. */
  function OfTokens(tokens: seq<string>): Result<string, ParseError> {
    var instanceID := if |tokens| == 1 then tokens[0] else if |tokens| == 2 then tokens[1] else "";
    if instanceID == "" || !IsUniqueID(instanceID) then Err(WrongFormat) else Ok(instanceID)
  }

  /** The unreserved characters of section 2.3 of RFC 3986, and the slash. */
  predicate SafeChar(c: char) {
    || 'a' <= c <= 'z' || 'A' <= c <= 'Z' || '0' <= c <= '9'
    || c == '-' || c == '.' || c == '_' || c == '~' || c == '/'
  }

  predicate Safe(s: string) {
    forall c :: c in s ==> SafeChar(c)
  }

  /** The authority of a hierarchical part: everything before the next slash (section 3 of RFC 3986). */
  function Authority(rest: string): string {
    if rest == "" || rest[0] == '/' then "" else [rest[0]] + Authority(rest[1..])
  }

  function PathOf(rest: string): string {
    if rest == "" || rest[0] == '/' then rest else PathOf(rest[1..])
  }

  /** An absolute path of safe characters and colons, which section 3.3 of RFC 3986 allows there. */
  predicate PlainPath(path: string) {
    HasPrefix(path, "/") && forall c :: c in path ==> SafeChar(c) || c == ':'
  }

  /**
   * On safe characters, and colons in the path if there is no authority, the URL parser splits
   * scheme, authority and path as section 3 of RFC 3986 says.
   */
  ghost predicate SplitsSafeURLs(parse: string -> Option<URL>) {
    && (forall rest :: Safe(rest) ==> parse(PREFIX + rest) == Some(URL(SCHEME, Authority(rest), PathOf(rest))))
    && (forall path :: PlainPath(path) ==> parse(PREFIX + path) == Some(URL(SCHEME, "", path)))
  }

  /** A parser that splits as required, and accepts nothing else. */
  function PlainSplit(s: string): Option<URL> {
    if HasPrefix(s, PREFIX) then Some(URL(SCHEME, Authority(s[|PREFIX|..]), PathOf(s[|PREFIX|..]))) else None
  }

  /** What the results ask of the parser can be met. */
  lemma PlainSplitIsOne()
    ensures SplitsSafeURLs(PlainSplit)
  {
  }

  // ---------------------------------------------------------------- round trips

  lemma EndsInID(s: string, id: string)
    requires IsUniqueID(id)
    ensures TrimRight(s + id, '/') == s + id
  {
  }

  lemma Trimmed(zone: string, id: string)
    requires IsUniqueID(id)
    ensures Trim(zone + "/" + id, '/') == if TrimLeft(zone, '/') == "" then id else TrimLeft(zone, '/') + "/" + id
    ensures Trim(zone + id, '/') == if TrimLeft(zone, '/') == "" then id else TrimLeft(zone, '/') + id
  {
    assert id[0] == 'i';
    TrimLeftOf(zone, id, '/');
    TrimLeftOf(zone + "/", id, '/');
    TrimSlash(zone);
    assert zone + "/" + id == (zone + "/") + id;
    EndsInID(TrimLeft(zone, '/') + "/", id);
    EndsInID(TrimLeft(zone, '/'), id);
    EndsInID("", id);
    assert "" + id == id;
  }

  lemma {:induction false} TrimSlash(zone: string)
    ensures TrimLeft(zone + "/", '/') == if TrimLeft(zone, '/') == "" then "" else TrimLeft(zone, '/') + "/"
  {
    if zone == "" {
      assert zone + "/" == "/";
      assert "/"[1..] == "";
    } else if zone[0] == '/' {
      assert (zone + "/")[1..] == zone[1..] + "/";
      TrimSlash(zone[1..]);
    }
  }

  /** A path of slashes, zone and ID yields the ID exactly if nothing but the zone stands before it. */
  lemma TokenOfPath(zone: string, id: string, tokens: seq<string>)
    requires IsUniqueID(id) && tokens == SplitOn(Trim(zone + "/" + id, '/'), '/')
    ensures (|tokens| == 1 ==> tokens[0] == id) && (|tokens| == 2 ==> tokens[1] == id)
    ensures |tokens| <= 2 <==> '/' !in TrimLeft(zone, '/')
  {
    var z := TrimLeft(zone, '/');
    Trimmed(zone, id);
    if z == "" {
      SplitPlain(id, '/');
    } else {
      assert z + "/" + id == z + ['/'] + id;
      SplitLast(z, id, '/');
      SplitPlain(z, '/');
    }
  }

  lemma MetadataShape(zone: string, id: string)
    ensures MetadataProviderID(zone, id) == PREFIX + ("/" + zone + "/" + id)
    ensures HasPrefix(MetadataProviderID(zone, id), PREFIX)
    ensures !HasPrefix(InstanceID(zone, id), PREFIX)
    ensures PREFIX + "/" + "/" + InstanceID(zone, id) == PREFIX + ("///" + zone + "/" + id)
  {
    assert "nifcloud:///" == PREFIX + "/";
    assert InstanceID(zone, id)[0] == '/';
  }

  lemma SlashesBefore(zone: string)
    ensures TrimLeft("/" + zone, '/') == TrimLeft(zone, '/')
    ensures TrimLeft("///" + zone, '/') == TrimLeft(zone, '/')
  {
    assert ("/" + zone)[1..] == zone;
    assert ("///" + zone)[1..] == "//" + zone;
    assert ("//" + zone)[1..] == "/" + zone;
  }

  lemma SafeParts(prefix: string, zone: string, id: string)
    requires Safe(prefix) && Safe(zone) && Safe(id)
    ensures Safe(prefix + zone + "/" + id)
  {
  }

  /**
   * Both printed forms parse back to the unique ID exactly if the zone, leading slashes aside,
   * has no slash; an empty zone is one of these.
   */
  lemma PrintedFormsReadBack(zone: string, id: string, parse: string -> Option<URL>)
    requires SplitsSafeURLs(parse) && Safe(zone) && Safe(id) && IsUniqueID(id)
    ensures UniqueIDOf(MetadataProviderID(zone, id), parse) == Ok(id) <==> '/' !in TrimLeft(zone, '/')
    ensures UniqueIDOf(InstanceID(zone, id), parse) == Ok(id) <==> '/' !in TrimLeft(zone, '/')
    ensures '/' in TrimLeft(zone, '/') ==>
              UniqueIDOf(MetadataProviderID(zone, id), parse) == UniqueIDOf(InstanceID(zone, id), parse) ==
              Err(WrongFormat)
  {
    MetadataShape(zone, id);
    SlashesBefore(zone);
    SafeParts("/", zone, id);
    SafeParts("///", zone, id);
    TokenOfPath("/" + zone, id, SplitOn(Trim("/" + zone + "/" + id, '/'), '/'));
    TokenOfPath("///" + zone, id, SplitOn(Trim("///" + zone + "/" + id, '/'), '/'));
    assert PathOf("/" + zone + "/" + id) == "/" + zone + "/" + id;
    assert PathOf("///" + zone + "/" + id) == "///" + zone + "/" + id;
  }

  /** A bare unique ID parses to itself. */
  lemma BareIDReadsBack(id: string, parse: string -> Option<URL>)
    requires SplitsSafeURLs(parse) && Safe(id) && IsUniqueID(id)
    ensures UniqueIDOf(id, parse) == Ok(id)
  {
    assert id[0] == 'i' && PREFIX[0] == 'n';
    assert !HasPrefix(id, PREFIX);
    assert PREFIX + "/" + "/" + id == PREFIX + ("//" + id);
    assert Safe("//" + id);
    assert PathOf("//" + id) == "//" + id;
    assert ("//")[1..] == "/" && ("/")[1..] == "";
    Trimmed("//", id);
    SplitPlain(id, '/');
  }

  /** The form of a unique ID: "i-" and anything without a slash, also nothing. */
  lemma UniqueIDIs(s: string)
    ensures IsUniqueID(s) <==> exists rest :: '/' !in rest && s == "i-" + rest
  {
    if IsUniqueID(s) {
      assert s == "i-" + s[2..];
    }
  }

  /** Whatever the parser accepts, its result has the form of a unique ID, and parses to itself if it is safe. */
  lemma ResultsAreStable(providerID: string, parse: string -> Option<URL>)
    requires SplitsSafeURLs(parse) && UniqueIDOf(providerID, parse).Ok?
    ensures IsUniqueID(UniqueIDOf(providerID, parse).value)
    ensures var id := UniqueIDOf(providerID, parse).value; Safe(id) ==> UniqueIDOf(id, parse) == Ok(id)
  {
    var id := UniqueIDOf(providerID, parse).value;
    if Safe(id) {
      BareIDReadsBack(id, parse);
    }
  }

  /** With a prefix of its own and safe characters, or as a plain path behind it, an ID always has the right scheme. */
  lemma SchemeIsNeverWrong(providerID: string, parse: string -> Option<URL>)
    requires SplitsSafeURLs(parse)
    requires if HasPrefix(providerID, PREFIX) then Safe(providerID[|PREFIX|..]) else PlainPath("//" + providerID)
    ensures UniqueIDOf(providerID, parse) != Err(WrongScheme) && UniqueIDOf(providerID, parse) != Err(NotAURL)
  {
    if HasPrefix(providerID, PREFIX) {
      assert providerID == PREFIX + providerID[|PREFIX|..];
    } else {
      assert PREFIX + "/" + "/" + providerID == PREFIX + ("//" + providerID);
    }
  }

  /** What stands before the first colon is determined. */
  lemma FirstColon(a: string, rest: string, b: string, rest': string)
    requires ':' !in a && ':' !in b && a + ":" + rest == b + ":" + rest'
    ensures a == b
  {
    var s := a + ":" + rest;
    assert s == b + ":" + rest';
    assert s[|a|] == ':' && s[|b|] == ':';
    assert forall i :: 0 <= i < |a| ==> s[i] == a[i];
    assert forall i :: 0 <= i < |b| ==> s[i] == b[i];
    assert |a| == |b|;
    assert a == s[..|a|] == b;
  }

  /** Before the first colon of an ID with the right prefix stands the right scheme. */
  lemma OtherPrefix(scheme: string, rest: string)
    requires ':' !in scheme
    ensures HasPrefix(scheme + ":" + rest, PREFIX) ==> scheme == SCHEME
  {
    var id := scheme + ":" + rest;
    if HasPrefix(id, PREFIX) {
      var rest' := PREFIX[|SCHEME| + 1..] + id[|PREFIX|..];
      assert PREFIX == SCHEME + ":" + PREFIX[|SCHEME| + 1..];
      assert id == PREFIX + id[|PREFIX|..];
      assert id == SCHEME + ":" + rest';
      FirstColon(scheme, rest, SCHEME, rest');
    }
  }

  lemma TrimBoth(head: string, path: string)
    requires head != "" && '/' !in head
    ensures var path' := TrimRight(path, '/');
            Trim("//" + (head + ("//" + path)), '/') == if path' == "" then head else head + ("//" + path')
  {
    SlashesFirst(head + ("//" + path));
    TrimRightOf(head, "//" + path, '/');
    TrimRightOf("//", path, '/');
    assert TrimRight("//", '/') == "" by {
      assert "//"[..1] == "/" && "/"[..0] == "";
    }
  }

  lemma SlashesFirst(s: string)
    requires s != "" && s[0] != '/'
    ensures TrimLeft("//" + s, '/') == s
  {
    assert TrimLeft(s, '/') == s;
    assert ("/" + s)[1..] == s && TrimLeft("/" + s, '/') == s;
    assert ("//" + s)[1..] == "/" + s;
  }

  lemma ThreePieces(head: string, rest: string)
    ensures |SplitOn(head + ("//" + rest), '/')| > 2
  {
    assert head + ("//" + rest) == head + ['/'] + ("/" + rest);
    SplitCount(head, "/" + rest, '/');
    assert "/" + rest == "" + ['/'] + rest;
    SplitCount("", rest, '/');
  }

  lemma TakenForBare(id: string, parse: string -> Option<URL>)
    requires SplitsSafeURLs(parse) && !HasPrefix(id, PREFIX) && PlainPath("//" + id)
    ensures UniqueIDOf(id, parse) == OfTokens(SplitOn(Trim("//" + id, '/'), '/'))
  {
    assert PREFIX + "/" + "/" + id == PREFIX + ("//" + id);
  }

  /**
   * An ID with another scheme is taken for a bare one: its format is wrong, unless nothing but
   * slashes follows the scheme and the scheme itself looks like a unique ID; then that is the
   * result, with its colon.
   */
  lemma ForeignSchemes(scheme: string, path: string, parse: string -> Option<URL>)
    requires SplitsSafeURLs(parse) && scheme != "" && scheme != SCHEME && '/' !in scheme && ':' !in scheme
    requires PlainPath("//" + (scheme + ":" + ("//" + path)))
    ensures UniqueIDOf(scheme + ":" + ("//" + path), parse) ==
            if TrimRight(path, '/') == "" && HasPrefix(scheme, "i-") then Ok(scheme + ":") else Err(WrongFormat)
  {
    OtherPrefix(scheme, "//" + path);
    TakenForBare(scheme + ":" + ("//" + path), parse);
    ForeignTokens(scheme, path);
  }

  lemma HeadAlone(scheme: string)
    requires scheme != "" && '/' !in scheme
    ensures OfTokens([scheme + ":"]) == if HasPrefix(scheme, "i-") then Ok(scheme + ":") else Err(WrongFormat)
  {
    var head := scheme + ":";
    assert head[|scheme|] == ':' && '/' !in head;
    assert HasPrefix(head, "i-") <==> HasPrefix(scheme, "i-") by {
      if |scheme| >= 2 {
        assert head[..2] == scheme[..2];
      } else {
        assert head[1] == ':' != "i-"[1];
      }
    }
  }

  lemma ForeignTokens(scheme: string, path: string)
    requires scheme != "" && '/' !in scheme
    ensures OfTokens(SplitOn(Trim("//" + (scheme + ":" + ("//" + path)), '/'), '/')) ==
            if TrimRight(path, '/') == "" && HasPrefix(scheme, "i-") then Ok(scheme + ":") else Err(WrongFormat)
  {
    TrimBoth(scheme + ":", path);
    if TrimRight(path, '/') == "" {
      SplitPlain(scheme + ":", '/');
      HeadAlone(scheme);
    } else {
      ThreePieces(scheme + ":", TrimRight(path, '/'));
    }
  }
}
