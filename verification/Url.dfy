/**
 URLs (lib/url/url.c, after section 3 of RFC 3986, with bracketed IPv6 hosts as in
 section 2 of RFC 2732): parsing, printing, joining, and exactly when a printed
 URL is parsed back.
 */
module Url {
  import opened Common

  datatype Scheme = File | Ftp | Http | Https | Nfs | Sftp | Tftp

  /** `dir` and `file` are the two parts of `path`. */
  datatype Url = Url(scheme: Scheme, host: Option<string>, port: Option<string>, path: string, dir: Option<string>,
      file: string)

  // --- characters in strings ---

  /** `strrchr`: the last position, -1 if there is none. */
  function Last(s: string, c: char): (i: int)
    ensures -1 <= i < |s| && (i >= 0 ==> s[i] == c) && forall k :: i < k < |s| ==> s[k] != c
  {
    if s == "" then -1 else if s[|s| - 1] == c then |s| - 1 else Last(s[..|s| - 1], c)
  }

  // --- schemes ---

  const SCHEMES: seq<Scheme> := [File, Ftp, Http, Https, Nfs, Sftp, Tftp]
  const SEPARATOR: string := "://"

  function Name(scheme: Scheme): (r: string) {
    match scheme
    case File => "file"
    case Ftp => "ftp"
    case Http => "http"
    case Https => "https"
    case Nfs => "nfs"
    case Sftp => "sftp"
    case Tftp => "tftp"
  }

  /** `strncasecmp` over the length of `name` finds no difference. */
  predicate SameLetters(s: string, name: string) {
    |name| <= |s| && forall i :: 0 <= i < |name| ==> Lower(s[i]) == Lower(name[i])
  }

  predicate HasScheme(s: string, scheme: Scheme) {
    var n := |Name(scheme)|;
    n + 3 <= |s| && s[n..n + 3] == SEPARATOR && SameLetters(s, Name(scheme))
  }

  lemma NameLetters(scheme: Scheme)
    ensures forall i :: 0 <= i < |Name(scheme)| ==> 'a' <= Name(scheme)[i] <= 'z'
    ensures scheme in SCHEMES
  {
    assert SCHEMES[0] == File && SCHEMES[1] == Ftp && SCHEMES[2] == Http && SCHEMES[3] == Https;
    assert SCHEMES[4] == Nfs && SCHEMES[5] == Sftp && SCHEMES[6] == Tftp;
  }

  lemma NamesDiffer(a: Scheme, b: Scheme)
    requires Name(a) == Name(b)
    ensures a == b
  {
  }

  /** No string starts with two schemes. */
  lemma OneScheme(s: string, a: Scheme, b: Scheme)
    requires HasScheme(s, a) && HasScheme(s, b)
    ensures a == b
  {
    NameLetters(a);
    NameLetters(b);
    var n, m := |Name(a)|, |Name(b)|;
    hide Name;
    assert s[n..n + 3][0] == ':' && s[m..m + 3][0] == ':';
    assert n == m;
    forall i | 0 <= i < n ensures Name(a)[i] == Name(b)[i] {
      assert Lower(s[i]) == Lower(Name(a)[i]) == Lower(Name(b)[i]);
    }
    assert Name(a) == Name(b);
    NamesDiffer(a, b);
  }

  /** The schemes, in any case of letters. */
  lemma SchemeTable(rest: string)
    ensures HasScheme("file://" + rest, File) && HasScheme("ftp://" + rest, Ftp) && HasScheme("http://" + rest, Http)
    ensures HasScheme("https://" + rest, Https) && HasScheme("nfs://" + rest, Nfs) && HasScheme("sftp://" + rest, Sftp)
    ensures HasScheme("tftp://" + rest, Tftp) && HasScheme("HTTP://" + rest, Http)
  {
  }

  /** `pb_url_find_scheme` */
  method FindScheme(s: string) returns (r: Option<Scheme>)
    ensures r == None ==> forall scheme :: !HasScheme(s, scheme)
    ensures r.Some? ==> HasScheme(s, r.value)
  {
    hide Name;
    var i := 0;
    while i < |SCHEMES|
      invariant 0 <= i <= |SCHEMES| && forall k :: 0 <= k < i ==> !HasScheme(s, SCHEMES[k])
    {
      if HasScheme(s, SCHEMES[i]) {
        return Some(SCHEMES[i]);
      }
      i := i + 1;
    }
    forall scheme ensures !HasScheme(s, scheme) { NameLetters(scheme); }
    return None;
  }

  // --- parsing ---

  datatype Authority = Authority(host: string, port: Option<string>, path: string)

  /** Of several leading slashes one is kept. */
  function OneSlash(path: string): (r: string) {
    if |path| > 1 && path[1] == '/' then OneSlash(path[1..]) else path
  }

  /**
   The colon in front of a port: the last one in the text, unless it is the first character or a
   bracket closes behind it.
   */
  function PortColon(p: string): (col: int)
    ensures -1 <= col < |p|
  {
    var col := Last(p, ':');
    if col <= 0 || IndexOf(p[col..], ']') < |p| - col then -1 else col
  }

  /**
   Host, port and path behind the scheme; none if there is no slash. A port runs to the first slash,
   or to the end if that comes before the colon.
   */
  function ParseAuthority(p: string): (r: Option<Authority>) {
    var slash := IndexOf(p, '/');
    if slash == |p| then None
    else
      var col := PortColon(p);
      var n := if col >= 0 then col else slash;
      var port := if col < 0 || slash == col + 1 then None else if slash > col then Some(p[col + 1..slash])
        else Some(p[col + 1..]);
      var host := if n >= 2 && p[0] == '[' && p[n - 1] == ']' then p[1..n - 1] else p[..n];
      Some(Authority(host, port, OneSlash(p[slash..])))
  }

  /** `pb_url_parse_path` */
  function Split(path: string): (r: (Option<string>, string)) {
    var k := Last(path, '/');
    if k >= 0 then (Some(path[..k + 1]), path[k + 1..]) else (None, path)
  }

  /** The directory, which ends with a slash, and the file, which holds none, make up the path. */
  lemma SplitParts(path: string)
    ensures var (dir, file) := Split(path);
      && (if dir.Some? then dir.value + file else file) == path && '/' !in file
      && (dir.Some? <==> '/' in path) && (dir.Some? ==> dir.value != "" && dir.value[|dir.value| - 1] == '/')
  {
    hide Last;
    var k := Last(path, '/');
    if k >= 0 {
      assert path[..k + 1] + path[k + 1..] == path;
      var rest := path[k + 1..];
      forall i | 0 <= i < |rest| ensures rest[i] != '/' { assert rest[i] == path[k + 1 + i]; }
    }
  }

  function Make(scheme: Scheme, host: Option<string>, port: Option<string>, path: string): (u: Url) {
    Url(scheme, host, port, path, Split(path).0, Split(path).1)
  }

  /** The text behind a scheme and its separator. */
  function ParseRest(scheme: Scheme, p: string): (r: Option<Url>) {
    if scheme == File then Some(Make(File, None, None, p))
    else
      var a := ParseAuthority(p);
      if a == None then None else Some(Make(scheme, Some(a.value.host), a.value.port, a.value.path))
  }

  /** `pb_url_parse`; without a known scheme the whole string is a path. */
  method Parse(s: string) returns (r: Option<Url>)
    requires s != ""
    ensures forall scheme :: HasScheme(s, scheme) ==> r == ParseRest(scheme, s[|Name(scheme)| + 3..])
    ensures (forall scheme :: !HasScheme(s, scheme)) ==> r == ParseRest(File, s)
  {
    hide Name, ParseRest;
    var scheme := FindScheme(s);
    if scheme == None {
      return ParseRest(File, s);
    }
    forall other | HasScheme(s, other) ensures other == scheme.value { OneScheme(s, other, scheme.value); }
    return ParseRest(scheme.value, s[|Name(scheme.value)| + 3..]);
  }

  // --- printing ---

  /** The host as it is printed; `v6` tells numeric IPv6 addresses. */
  function PrintHost(host: string, v6: string -> bool): (r: string) {
    if v6(host) then "[" + host + "]" else host
  }

  function PrintPort(port: Option<string>): (r: string) {
    if port == None then "" else ":" + port.value
  }

  /** `pb_url_to_string` behind the scheme and its separator. */
  function PrintRest(u: Url, v6: string -> bool): (r: string)
    requires u.scheme == File || u.host.Some?
  {
    (if u.scheme == File then "" else PrintHost(u.host.value, v6)) + PrintPort(u.port) + u.path
  }

  function Print(u: Url, v6: string -> bool): (r: string)
    requires u.scheme == File || u.host.Some?
  {
    Name(u.scheme) + SEPARATOR + PrintRest(u, v6)
  }

  predicate Plain(s: string) {
    '/' !in s && '[' !in s && ']' !in s
  }

  /**
   A record that names something: a host that is plain but for the colons of an IPv6 address, a
   plain port, an absolute path.
   */
  predicate WellFormed(u: Url, v6: string -> bool) {
    && (u.dir, u.file) == Split(u.path)
    && if u.scheme == File then u.host == None && u.port == None
       else
         && u.host.Some? && u.host.value != "" && Plain(u.host.value) && (v6(u.host.value) || ':' !in u.host.value)
         && (u.port.Some? ==> u.port.value != "" && Plain(u.port.value) && ':' !in u.port.value)
         && u.path != "" && u.path[0] == '/' && (|u.path| > 1 ==> u.path[1] != '/')
  }

  /** The path does not disturb the search for the port: see `UrlBackIff`. */
  predicate Undisturbed(u: Url) {
    if u.scheme == File then true
    else if u.port.Some? then ':' !in u.path && ']' !in u.path
    else ':' !in u.path || ']' in u.path[Last(u.path, ':')..]
  }

  lemma SchemeBack(u: Url, v6: string -> bool)
    requires u.scheme == File || u.host.Some?
    ensures HasScheme(Print(u, v6), u.scheme)
    ensures Print(u, v6)[|Name(u.scheme)| + 3..] == PrintRest(u, v6)
  {
    hide Name, PrintRest;
    var n := |Name(u.scheme)|;
    var s := Print(u, v6);
    assert s[..n] == Name(u.scheme) && s[n..n + 3] == SEPARATOR;
    forall i | 0 <= i < n ensures s[i] == Name(u.scheme)[i] { assert s[i] == s[..n][i]; }
  }

  // --- back and forth ---

  lemma IndexIs(s: string, c: char, i: nat)
    requires i <= |s| && (i < |s| ==> s[i] == c) && forall k :: 0 <= k < i ==> s[k] != c
    ensures IndexOf(s, c) == i
  {
    hide IndexOf;
  }

  lemma LastIs(s: string, c: char, i: int)
    requires -1 <= i < |s| && (i >= 0 ==> s[i] == c) && forall k :: i < k < |s| ==> s[k] != c
    ensures Last(s, c) == i
  {
    hide Last;
  }

  /** The host in front of position `n`, without its brackets. */
  function HostUpTo(p: string, n: nat): (r: string)
    requires n <= |p|
  {
    if n >= 2 && p[0] == '[' && p[n - 1] == ']' then p[1..n - 1] else p[..n]
  }

  lemma HostBack(host: string, v6: string -> bool, rest: string)
    requires host != "" && Plain(host)
    ensures var h := PrintHost(host, v6); HostUpTo(h + rest, |h|) == host && '/' !in h && |h| > 0
  {
    var h := PrintHost(host, v6);
    var p := h + rest;
    assert p[..|h|] == h;
    if v6(host) {
      assert p[0] == '[' && p[|h| - 1] == ']' && p[1..|h| - 1] == host;
    } else {
      assert p[0] == host[0] && host[0] in host;
    }
  }

  /** A colon behind the first slash is taken for the one in front of a port: the host then swallows a slash. */
  lemma HostTooLong(p: string, slash: nat, n: nat, host: string)
    requires 0 < slash < n <= |p| && p[slash] == '/' && '/' !in host
    ensures HostUpTo(p, n) != host
  {
    if n >= 2 && p[0] == '[' && p[n - 1] == ']' {
      assert p[1..n - 1][slash - 1] == '/';
    } else {
      assert p[..n][slash] == '/';
    }
  }

  lemma ColonInPath(front: string, path: string)
    requires ':' in path && front != ""
    ensures var p := front + path;
      PortColon(p) == if ']' in path[Last(path, ':')..] then -1 else |front| + Last(path, ':')
  {
    hide IndexOf, Last;
    var p, k := front + path, Last(path, ':');
    assert k >= 0;
    LastIs(p, ':', |front| + k);
    assert p[|front| + k..] == path[k..];
  }

  lemma ColonOfPort(h: string, port: string, path: string)
    requires ':' !in path && ':' !in port && ']' !in port && h != ""
    ensures PortColon(h + ":" + port + path) == if ']' in path then -1 else |h|
  {
    hide IndexOf, Last;
    var p := h + ":" + port + path;
    var tail := ":" + port + path;
    assert p[|h|..] == tail;
    LastIs(p, ':', |h|);
    var b := IndexOf(tail, ']');
    if ']' in path {
      var i :| 0 <= i < |path| && path[i] == ']';
      assert tail[1 + |port| + i] == ']';
    } else {
      IndexIs(tail, ']', |tail|);
    }
  }

  lemma NoColon(host: string, v6: string -> bool, path: string)
    requires ':' !in path && Plain(host) && (v6(host) || ':' !in host)
    ensures PortColon(PrintHost(host, v6) + path) == -1
  {
    hide IndexOf, Last;
    var h := PrintHost(host, v6);
    var p := h + path;
    var col := Last(p, ':');
    if col > 0 {
      assert col < |h| && v6(host);
      assert p[col..][|h| - 1 - col] == ']';
    }
  }

  /** What parsing yields, once the slash and the colon have been found. */
  lemma Found(front: string, path: string, col: int)
    requires '/' !in front && path != "" && path[0] == '/' && (|path| > 1 ==> path[1] != '/')
      && PortColon(front + path) == col
    ensures var p, slash := front + path, |front|;
      ParseAuthority(p) == Some(Authority(HostUpTo(p, if col >= 0 then col else slash),
        if col < 0 || slash == col + 1 then None else if slash > col then Some(p[col + 1..slash])
          else Some(p[col + 1..]), path))
  {
    hide IndexOf, PortColon;
    var p := front + path;
    forall k | 0 <= k < |front| ensures p[k] != '/' { assert p[k] == front[k]; }
    IndexIs(p, '/', |front|);
    assert p[|front|..] == path && OneSlash(path) == path;
  }

  /** Host, port and path come back exactly if the path does not disturb the search for the port. */
  lemma AuthorityBack(host: string, v6: string -> bool, port: Option<string>, path: string)
    requires host != "" && Plain(host) && (v6(host) || ':' !in host)
    requires port.Some? ==> port.value != "" && Plain(port.value) && ':' !in port.value
    requires path != "" && path[0] == '/' && (|path| > 1 ==> path[1] != '/')
    ensures ParseAuthority(PrintHost(host, v6) + PrintPort(port) + path) == Some(Authority(host, port, path)) <==>
      if port.Some? then ':' !in path && ']' !in path else ':' !in path || ']' in path[Last(path, ':')..]
  {
    hide Last, PortColon, PrintHost, ParseAuthority, HostUpTo;
    var h, q := PrintHost(host, v6), PrintPort(port);
    var p := h + q + path;
    HostBack(host, v6, q + path);
    assert p == h + (q + path);
    var col := PortColon(p);
    Found(h + q, path, col);
    if ':' in path {
      ColonInPath(h + q, path);
      if col >= 0 {
        HostTooLong(p, |h + q|, col, host);
      } else if port == None {
        assert h + q == h;
      }
    } else if port.Some? {
      assert p == h + ":" + port.value + path;
      ColonOfPort(h, port.value, path);
      assert p[|h| + 1..|h + q|] == port.value;
    } else {
      assert h + q == h;
      NoColon(host, v6, path);
    }
  }

  /**
   A well-formed URL is parsed back from its printed form if and only if its path does not disturb
   the search for the port.
   */
  lemma UrlBackIff(u: Url, v6: string -> bool)
    requires WellFormed(u, v6)
    ensures ParseRest(u.scheme, PrintRest(u, v6)) == Some(u) <==> Undisturbed(u)
  {
    hide ParseAuthority, PrintHost, Last;
    if u.scheme == File {
      assert PrintRest(u, v6) == u.path;
    } else {
      AuthorityBack(u.host.value, v6, u.port, u.path);
    }
  }

  /** Printing and parsing, end to end. */
  method PrintAndParse(u: Url, v6: string -> bool) returns (r: Option<Url>)
    requires WellFormed(u, v6)
    ensures r == Some(u) <==> Undisturbed(u)
  {
    hide ParseRest, PrintRest, HasScheme, Undisturbed;
    SchemeBack(u, v6);
    UrlBackIff(u, v6);
    r := Parse(Print(u, v6));
  }

  /** A colon in the path is taken for the port's. */
  lemma ColonInPathBreaks(v6: string -> bool)
    requires !v6("h")
    ensures ParseRest(Http, "h/a:b").value.host != Some("h")
  {
    var p := "h/a:b";
    IndexIs(p, '/', 1);
    LastIs(p, ':', 3);
    IndexIs(p[3..], ']', 2);
    HostTooLong(p, 1, 3, "h");
  }

  // --- joining ---

  /** `strstr(s, "://")` */
  predicate IsUrl(s: string) {
    exists i :: 0 <= i < |s| && SeparatorAt(s, i)
  }

  predicate SeparatorAt(s: string, i: nat) {
    i + 3 <= |s| && s[i..i + 3] == SEPARATOR
  }

  /** The path of a join: an absolute one replaces the old path, a relative one its last component. */
  function JoinedPath(u: Url, s: string): (r: string) {
    if s != "" && s[0] == '/' then s else Directory(u) + s
  }

  /** The directory as it is printed: a path without a slash has none, and a null string is printed in its own way. */
  function Directory(u: Url): (r: string) {
    if u.dir.Some? then u.dir.value else "(null)"
  }

  /** A relative join keeps the path absolute, with a single slash in front. */
  lemma DirStart(path: string, s: string)
    requires s == "" || s[0] != '/'
    ensures var joined := (if Split(path).0.Some? then Split(path).0.value else "(null)") + s;
      path != "" && path[0] == '/' && (|path| > 1 ==> path[1] != '/') ==>
        joined != "" && joined[0] == '/' && (|joined| > 1 ==> joined[1] != '/')
  {
    hide Last;
  }

  /**
   The directory is the path without the file; a relative join replaces the file, and the file
   itself changes nothing.
   */
  lemma RelativeTo(u: Url, s: string)
    requires (u.dir, u.file) == Split(u.path)
    ensures u.dir.Some? ==> u.dir.value == u.path[..|u.path| - |u.file|] && u.dir.value + u.file == u.path
    ensures u.file == "" || u.file[0] != '/'
  {
    SplitParts(u.path);
    hide Split;
    if u.dir.Some? { assert (u.dir.value + u.file)[..|u.dir.value|] == u.dir.value; }
    if u.file != "" { assert u.file[0] in u.file; }
  }

  /** `pb_url_join` of something that is not a URL itself, with the string kept beside the record. */
  method Join(u: Url, s: string, v6: string -> bool) returns (r: Url, full: string)
    requires WellFormed(u, v6) && !IsUrl(s)
    ensures r == Make(u.scheme, u.host, u.port, JoinedPath(u, s)) && full == Print(r, v6)
    ensures r.path == (if r.dir.Some? then r.dir.value else "") + r.file
    ensures s != "" && s[0] == '/' ==> r.path == s
    ensures s == "" || s[0] != '/' ==> r.path == (if u.dir.Some? then u.path[..|u.path| - |u.file|] else "(null)") + s
    ensures (u.scheme, u.host, u.port) == (r.scheme, r.host, r.port)
    ensures s == u.file && u.dir.Some? ==> r == u
    ensures s == "" || s[0] != '/' ==> WellFormed(r, v6)
    ensures WellFormed(r, v6) && Undisturbed(r) ==> ParseRest(r.scheme, full[|Name(r.scheme)| + 3..]) == Some(r)
  {
    hide ParseRest, PrintRest, Undisturbed, Split, Name;
    r := u;
    if s != "" && s[0] == '/' {
      r := r.(path := s);
    } else {
      r := r.(path := Directory(u) + s);
    }
    SplitParts(u.path);
    RelativeTo(u, s);
    SplitParts(r.path);
    r := r.(dir := Split(r.path).0, file := Split(r.path).1);
    full := Print(r, v6);
    SchemeBack(r, v6);
    if s == "" || s[0] != '/' { DirStart(u.path, s); }
    if WellFormed(r, v6) { UrlBackIff(r, v6); }
  }
}
