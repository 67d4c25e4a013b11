/** How the WhatsUp Gold client turns its configuration into request URLs:
    the host sanitisation done when the client is built, and the reference
    resolution of `urljoin(base_url, endpoint.lstrip('/'))` (section 5.2 of
    RFC 3986 as Python's `urllib.parse` implements it, which additionally
    drops empty interior segments). */
module Urls {
  import opened Base
  import opened Text
  import opened Http

  // ------------------------------------------------------------------ split / join

  /** `s.split(c)`. */
  function Split(s: string, c: char): (r: seq<string>)
    ensures |r| >= 1
    decreases |s|
  {
    if s == [] then [""]
    else
      var rest := Split(s[1..], c);
      if s[0] == c then [""] + rest else [[s[0]] + rest[0]] + rest[1..]
  }

  /** `c.join(parts)`. */
  function Join(parts: seq<string>, c: char): string {
    if parts == [] then ""
    else if |parts| == 1 then parts[0]
    else parts[0] + [c] + Join(parts[1..], c)
  }

  lemma {:induction false} JoinSplit(s: string, c: char)
    ensures Join(Split(s, c), c) == s
    decreases |s|
  {
    if s != [] {
      var rest := Split(s[1..], c);
      JoinSplit(s[1..], c);
      if s[0] == c {
        assert Join([""] + rest, c) == "" + [c] + Join(rest, c);
        assert s == [c] + s[1..];
      } else if |rest| == 1 {
        assert Split(s, c) == [[s[0]] + rest[0]];
        assert s == [s[0]] + s[1..];
      } else {
        var parts := [[s[0]] + rest[0]] + rest[1..];
        assert parts[1..] == rest[1..];
        assert Join(parts, c) == [s[0]] + rest[0] + [c] + Join(rest[1..], c);
        assert Join(rest, c) == rest[0] + [c] + Join(rest[1..], c);
        assert s == [s[0]] + s[1..];
      }
    }
  }

  lemma JoinCons(head: string, tail: seq<string>, c: char)
    requires tail != []
    ensures Join([head] + tail, c) == head + [c] + Join(tail, c)
  {
    assert ([head] + tail)[1..] == tail;
  }

  // ------------------------------------------------------------------ path resolution

  /** `segments[1:-1] = filter(None, segments[1:-1])`. */
  function NonEmpty(segs: seq<string>): (r: seq<string>)
    ensures forall i :: 0 <= i < |r| ==> r[i] != ""
    ensures (forall i :: 0 <= i < |segs| ==> segs[i] != "") ==> r == segs
  {
    if segs == [] then []
    else if segs[0] == "" then NonEmpty(segs[1..])
    else [segs[0]] + NonEmpty(segs[1..])
  }

  function Squeeze(segs: seq<string>): (r: seq<string>)
    ensures |segs| >= 1 ==> |r| >= 1 && r[|r| - 1] == segs[|segs| - 1]
  {
    if |segs| <= 2 then segs
    else [segs[0]] + NonEmpty(segs[1..|segs| - 1]) + [segs[|segs| - 1]]
  }

  /** The removal of `.` and `..` segments: `..` pops the last kept segment
      (if any), `.` is dropped, anything else is kept. */
  function DotSegments(kept: seq<string>, segs: seq<string>): seq<string>
    decreases |segs|
  {
    if segs == [] then kept
    else if segs[0] == ".." then
      DotSegments(if kept == [] then [] else kept[..|kept| - 1], segs[1..])
    else if segs[0] == "." then DotSegments(kept, segs[1..])
    else DotSegments(kept + [segs[0]], segs[1..])
  }

  /** A segment that resolution leaves as it is. */
  predicate Plain(seg: string) {
    seg != "" && seg != "." && seg != ".."
  }

  lemma {:induction false} DotSegmentsPlain(kept: seq<string>, segs: seq<string>)
    requires forall i :: 0 <= i < |segs| ==> Plain(segs[i])
    ensures DotSegments(kept, segs) == kept + segs
    decreases |segs|
  {
    if segs != [] {
      DotSegmentsPlain(kept + [segs[0]], segs[1..]);
      assert kept + [segs[0]] + segs[1..] == kept + segs;
    }
  }

  /** The path of the joined URL, before `urlunsplit` adds its leading `/`. */
  function MergedPath(bpath: string, ref: string): string {
    var bparts := Split(bpath, '/');
    var baseParts := if bparts[|bparts| - 1] != "" then bparts[..|bparts| - 1] else bparts;
    var segments := Squeeze(baseParts + Split(ref, '/'));
    var resolved := DotSegments([], segments);
    var last := segments[|segments| - 1];
    var path := Join(if last == "." || last == ".." then resolved + [""] else resolved, '/');
    if path == "" then "/" else path
  }

  /** `urlunsplit((scheme, netloc, path, '', ''))` for a scheme that uses a netloc. */
  function Unsplit(scheme: string, netloc: string, path: string): string {
    if netloc == "" && StartsWith(path, "//") then scheme + ":" + path
    else scheme + "://" + netloc + (if path != "" && path[0] != '/' then "/" + path else path)
  }

  /** `urljoin(scheme + "://" + rest, ref)` for a reference that carries no
      scheme, query, fragment or parameters. */
  function UrlJoin(scheme: string, rest: string, ref: string): string {
    if ref == "" then scheme + "://" + rest
    else
      var netloc := PrefixWithout(rest, {'/', '?', '#'});
      var bpath := PrefixWithout(rest[|netloc|..], {'?', '#'});
      Unsplit(scheme, netloc, MergedPath(bpath, ref))
  }

  /** A reference every segment of which is plain: no empty segment, no dot
      segment. All endpoints the client names are of this form. */
  predicate PlainRef(ref: string) {
    var segs := Split(ref, '/');
    forall i :: 0 <= i < |segs| ==> Plain(segs[i])
  }

  lemma {:induction false} SplitNoSeparator(s: string, c: char)
    requires c !in s
    ensures Split(s, c) == [s]
    decreases |s|
  {
    if s != [] {
      SplitNoSeparator(s[1..], c);
      assert [s[0]] + s[1..] == s;
    }
  }

  lemma SplitApi()
    ensures Split("/api", '/') == ["", "api"]
  {
    SplitNoSeparator("api", '/');
    assert "/api"[1..] == "api";
  }

  lemma SqueezeKeeps(all: seq<string>)
    requires forall i :: 1 <= i < |all| ==> all[i] != ""
    ensures Squeeze(all) == all
  {
    if |all| > 2 {
      var mid := all[1..|all| - 1];
      assert forall i :: 0 <= i < |mid| ==> mid[i] == all[i + 1];
      assert NonEmpty(mid) == mid;
      assert [all[0]] + mid + [all[|all| - 1]] == all;
    }
  }

  /** A plain reference replaces the last segment of the base path `/api`:
      it does not land beneath it. */
  lemma MergedPathFromApi(ref: string)
    requires PlainRef(ref)
    ensures MergedPath("/api", ref) == "/" + ref
  {
    SplitApi();
    ApiSegments(ref);
  }

  /** The segments of `/api` merged with a plain reference: the empty first
      segment, then the reference's own segments, all kept. */
  lemma ApiSegments(ref: string)
    requires PlainRef(ref)
    ensures var all := [""] + Split(ref, '/');
            Squeeze(["", "api"][..1] + Split(ref, '/')) == all && DotSegments([], all) == all
            && Plain(all[|all| - 1]) && Join(all, '/') == "/" + ref
  {
    var segs := Split(ref, '/');
    var all := [""] + segs;
    assert ["", "api"][..1] + segs == all;
    assert Squeeze(all) == all by {
      assert forall i :: 1 <= i < |all| ==> all[i] == segs[i - 1];
      SqueezeKeeps(all);
    }
    assert DotSegments([], all) == all by {
      DotSegmentsPlain([""], segs);
      assert all[0] == "" && all[1..] == segs && [] + [""] == [""];
    }
    assert all[|all| - 1] == segs[|segs| - 1];
    JoinCons("", segs, '/');
    JoinSplit(ref, '/');
  }

  /** The URL of a request to `endpoint` for a client whose base URL is
      `scheme://host:port/api`. */
  function EndpointUrl(scheme: string, host: string, port: int, endpoint: string): string {
    UrlJoin(scheme, host + ":" + IntToString(port) + "/api", LStrip(endpoint, '/'))
  }

  /** The URL a request is sent to, written out. */
  function UrlText(u: Url): string {
    match u
    case Absolute(text) => text
    case ApiEndpoint(scheme, host, port, endpoint) => EndpointUrl(scheme, host, port, endpoint)
  }

  /** No character of `s` is one of `cs`. */
  predicate Avoids(s: string, cs: set<char>) {
    forall i :: 0 <= i < |s| ==> s[i] !in cs
  }

  /** A host without URL delimiters. */
  predicate CleanHost(host: string) {
    Avoids(host, {'/', '?', '#'})
  }

  lemma IntTextClean(n: int)
    ensures CleanHost(IntToString(n))
  {
    var d := NatToString(if n < 0 then -n else n);
    assert AllDigits(d);
    assert forall i :: 0 <= i < |d| ==> IsDigit(d[i]);
  }

  lemma {:induction false} PrefixWithoutStop(a: string, b: string, stops: set<char>)
    requires Avoids(a, stops)
    requires b != [] && b[0] in stops
    ensures PrefixWithout(a + b, stops) == a
    decreases |a|
  {
    if a == [] {
      assert a + b == b;
    } else {
      var ab := a + b;
      assert ab[0] == a[0] && a[0] !in stops;
      assert ab[1..] == a[1..] + b;
      PrefixWithoutStop(a[1..], b, stops);
      assert PrefixWithout(ab, stops) == [a[0]] + a[1..];
    }
  }

  lemma ApiPrefix()
    ensures PrefixWithout("/api", {'?', '#'}) == "/api"
  {
    assert "/api"[1..] == "api";
    assert "api"[1..] == "pi";
    assert "pi"[1..] == "i";
    assert "i"[1..] == "";
  }

  /** A clean host followed by `:` and a port number is a clean netloc. */
  lemma NetlocClean(host: string, port: int)
    requires CleanHost(host)
    ensures Avoids(host + ":" + IntToString(port), {'/', '?', '#'})
  {
    var netloc := host + ":" + IntToString(port);
    IntTextClean(port);
    forall i | 0 <= i < |netloc| ensures netloc[i] !in {'/', '?', '#'} {
      if i < |host| { assert netloc[i] == host[i]; }
      else if i == |host| { assert netloc[i] == ':'; }
      else { assert netloc[i] == IntToString(port)[i - |host| - 1]; }
    }
  }

  /** With a clean host, every plain endpoint lands directly under the
      server's origin: `/devices` becomes `scheme://host:port/devices` and
      `/api/v1/token` becomes `scheme://host:port/api/v1/token`. */
  lemma EndpointUrlPlain(scheme: string, host: string, port: int, endpoint: string)
    requires CleanHost(host)
    requires LStrip(endpoint, '/') != "" && PlainRef(LStrip(endpoint, '/'))
    ensures EndpointUrl(scheme, host, port, endpoint)
         == scheme + "://" + host + ":" + IntToString(port) + "/" + LStrip(endpoint, '/')
  {
    var ref := LStrip(endpoint, '/');
    var netloc := host + ":" + IntToString(port);
    var rest := netloc + "/api";
    NetlocClean(host, port);
    PrefixWithoutStop(netloc, "/api", {'/', '?', '#'});
    assert PrefixWithout(rest, {'/', '?', '#'}) == netloc;
    assert rest[|netloc|..] == "/api";
    ApiPrefix();
    MergedPathFromApi(ref);
    assert netloc != "";
    assert UrlJoin(scheme, rest, ref) == Unsplit(scheme, netloc, "/" + ref);
    assert ("/" + ref)[0] == '/';
    var url := scheme + "://" + netloc + ("/" + ref);
    assert Unsplit(scheme, netloc, "/" + ref) == url;
    Regroup(scheme, host, IntToString(port), ref);
  }

  lemma Regroup(scheme: string, host: string, port: string, ref: string)
    ensures scheme + "://" + (host + ":" + port) + ("/" + ref) == scheme + "://" + host + ":" + port + "/" + ref
  {
  }

  // ------------------------------------------------------------------ host sanitisation

  /** The server address the client ends up with. */
  datatype Address = Address(host: string, port: int)

  const DefaultPort := 9644

  /** `urlparse(u).hostname` and the text of `urlparse(u).port` for a URL
      that starts with `http://` or `https://`, given the text after `//`. */
  function HostInfo(afterSlashes: string): (string, string) {
    var netloc := PrefixWithout(afterSlashes, {'/', '?', '#'});
    var hostinfo := AfterLast(netloc, '@');
    var name := Before(hostinfo, ':');
    var portText := match After(hostinfo, ':') case None => "" case Some(t) => t;
    (name, portText)
  }

  /** `hostname.lower()` up to a zone index `%`, which is kept as it is. */
  function LowerHost(name: string): string {
    var h := Before(name, '%');
    Lower(h) + name[|h|..]
  }

  /** `urlparse(host).hostname`, formatted as the base URL does: the text
      `None` when the URL has no hostname. */
  function UrlHostname(afterSlashes: string): string {
    var name := HostInfo(afterSlashes).0;
    if name == "" then "None" else LowerHost(name)
  }

  /** The text after `http://` or `https://`. */
  function AfterScheme(host: string): string
    requires StartsWith(host, "http://") || StartsWith(host, "https://")
  {
    if StartsWith(host, "http://") then host[7..] else host[8..]
  }

  /** The host and port the constructor keeps. A host given as an
      `http://` or `https://` URL is reduced to its hostname (the text
      `None` when it has none), and the URL's port replaces `port` only when
      `port` is the default 9644 and the URL's port is not 0. A port text
      that is not decimal, or above 65535, raises `ValueError`. */
  function SanitizeHost(host: string, port: int): (r: Result<Address, Exc>)
    ensures !StartsWith(host, "http://") && !StartsWith(host, "https://") ==> r == Ok(Address(host, port))
    ensures r.Ok? && r.value.port != port ==> port == DefaultPort && 1 <= r.value.port <= 65535
    ensures r.Err? ==> r.error.PythonError?
  {
    if !StartsWith(host, "http://") && !StartsWith(host, "https://") then Ok(Address(host, port))
    else AddressFromUrl(AfterScheme(host), port)
  }

  /** The address taken from a URL whose text after `//` is `rest`. */
  function AddressFromUrl(rest: string, port: int): (r: Result<Address, Exc>)
    ensures r.Ok? ==> r.value.host == UrlHostname(rest)
    ensures r.Ok? && r.value.port != port ==> port == DefaultPort && 1 <= r.value.port <= 65535
    ensures r.Err? ==> r.error.PythonError?
  {
    var hostname := UrlHostname(rest);
    var portText := HostInfo(rest).1;
    if portText == "" then Ok(Address(hostname, port))
    else if !AllDigits(portText) then
      Err(PythonError("Port could not be cast to integer value as '" + portText + "'"))
    else if DigitsValue(portText) > 65535 then Err(PythonError("Port out of range 0-65535"))
    else
      var p := DigitsValue(portText);
      Ok(Address(hostname, if p != 0 && port == DefaultPort then p else port))
  }

  lemma AvoidsSlice(s: string, lo: int, hi: int, cs: set<char>)
    requires 0 <= lo <= hi <= |s| && Avoids(s, cs)
    ensures Avoids(s[lo..hi], cs)
  {
    assert forall i :: 0 <= i < hi - lo ==> s[lo..hi][i] == s[lo + i];
  }

  /** The hostname a URL yields holds no delimiter. */
  lemma HostInfoClean(afterSlashes: string)
    ensures CleanHost(HostInfo(afterSlashes).0)
  {
    var netloc := PrefixWithout(afterSlashes, {'/', '?', '#'});
    assert Avoids(netloc, {'/', '?', '#'});
    var hostinfo := AfterLast(netloc, '@');
    AvoidsSlice(netloc, |netloc| - |hostinfo|, |netloc|, {'/', '?', '#'});
    assert Avoids(hostinfo, {'/', '?', '#', '@'});
    var name := Before(hostinfo, ':');
    AvoidsSlice(hostinfo, 0, |name|, {'/', '?', '#', '@'});
    assert name == hostinfo[0..|name|];
    assert Avoids(name, {'/', '?', '#', '@'});
  }

  lemma LowerHostClean(name: string)
    requires CleanHost(name)
    ensures CleanHost(LowerHost(name))
  {
    var h := Before(name, '%');
    assert h == name[..|h|];
    var lowered := LowerHost(name);
    forall i | 0 <= i < |lowered| ensures lowered[i] !in {'/', '?', '#'} {
      if i < |h| {
        assert lowered[i] == LowerChar(h[i]);
      } else {
        assert lowered[i] == name[i];
      }
    }
  }

  /** A host taken from a URL holds no delimiter, so the base URL's network
      location is exactly `host:port`. */
  lemma SanitizedHostClean(host: string, port: int)
    requires SanitizeHost(host, port).Ok?
    requires StartsWith(host, "http://") || StartsWith(host, "https://")
    ensures CleanHost(SanitizeHost(host, port).value.host)
  {
    UrlHostnameClean(AfterScheme(host));
  }

  lemma UrlHostnameClean(rest: string)
    ensures CleanHost(UrlHostname(rest))
  {
    var name := HostInfo(rest).0;
    if name != "" {
      HostInfoClean(rest);
      LowerHostClean(name);
      assert UrlHostname(rest) == LowerHost(name);
    } else {
      NoneClean();
      assert UrlHostname(rest) == "None";
    }
  }

  lemma NoneClean()
    ensures CleanHost("None")
  {
    assert forall i :: 0 <= i < |"None"| ==> "None"[i] in {'N', 'o', 'n', 'e'};
  }

  /** An explicit non-default port always wins over the URL's port. */
  lemma ExplicitPortWins(host: string, port: int)
    requires port != DefaultPort
    requires SanitizeHost(host, port).Ok?
    ensures SanitizeHost(host, port).value.port == port
  {
  }
}
