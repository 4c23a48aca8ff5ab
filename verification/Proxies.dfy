/** Validating the proxies of a bootstrap request, on the edge and on the controller. */
module Proxies {
  import opened Base
  import opened Identities
  import opened EdgeState

  // ---- Text ------------------------------------------------------------------------------

  predicate IsSpace(c: char) {
    || '\t' <= c <= '\r' || c == ' ' || c == '\U{85}' || c == '\U{A0}' || c == '\U{1680}' || '\U{2000}' <= c <= '\U{200A}'
    || c == '\U{2028}' || c == '\U{2029}' || c == '\U{202F}' || c == '\U{205F}' || c == '\U{3000}'
  }

  function TrimLeft(s: string): (r: string)
    ensures r == [] || !IsSpace(r[0])
  {
    if s != [] && IsSpace(s[0]) then TrimLeft(s[1..]) else s
  }

  function TrimRight(s: string): (r: string)
    ensures r <= s
    ensures r == [] || !IsSpace(r[|r| - 1])
  {
    if s != [] && IsSpace(s[|s| - 1]) then TrimRight(s[..|s| - 1]) else s
  }

  function TrimSpace(s: string): string { TrimRight(TrimLeft(s)) }

  lemma TrimIsIdempotent(s: string)
    ensures TrimSpace(TrimSpace(s)) == TrimSpace(s)
  {
    var r := TrimSpace(s);
    assert r == [] || r[0] == TrimLeft(s)[0];
    assert TrimLeft(r) == r;
  }

  ghost predicate Blank(s: string) { forall i :: 0 <= i < |s| ==> IsSpace(s[i]) }

  /** `r` is `s` without the white space around it. */
  ghost predicate Strips(s: string, r: string) {
    && (exists a, b :: Blank(a) && Blank(b) && s == a + r + b)
    && (r != [] ==> !IsSpace(r[0]) && !IsSpace(r[|r| - 1]))
  }

  lemma {:induction false} TrimLeftDrops(a: string, t: string)
    requires Blank(a) && (t == [] || !IsSpace(t[0]))
    ensures TrimLeft(a + t) == t
  {
    if a == [] {
      assert a + t == t;
    } else {
      assert (a + t)[1..] == a[1..] + t;
      TrimLeftDrops(a[1..], t);
    }
  }

  lemma {:induction false} TrimRightDrops(t: string, b: string)
    requires Blank(b) && (t == [] || !IsSpace(t[|t| - 1]))
    ensures TrimRight(t + b) == t
  {
    if b == [] {
      assert t + b == t;
    } else {
      assert (t + b)[..|t + b| - 1] == t + b[..|b| - 1];
      TrimRightDrops(t, b[..|b| - 1]);
    }
  }

  lemma {:induction false} TrimLeftSplits(s: string) returns (a: string)
    ensures Blank(a) && s == a + TrimLeft(s)
  {
    a := [];
    if s != [] && IsSpace(s[0]) {
      a := TrimLeftSplits(s[1..]);
      a := [s[0]] + a;
    }
  }

  lemma {:induction false} TrimRightSplits(s: string) returns (b: string)
    ensures Blank(b) && s == TrimRight(s) + b
  {
    b := [];
    if s != [] && IsSpace(s[|s| - 1]) {
      b := TrimRightSplits(s[..|s| - 1]);
      b := b + [s[|s| - 1]];
    }
  }

  lemma StrippedIsTrimmed(s: string, a: string, r: string, b: string)
    requires Blank(a) && Blank(b) && s == a + r + b && (r != [] ==> !IsSpace(r[0]) && !IsSpace(r[|r| - 1]))
    ensures r == TrimSpace(s)
  {
    hide IsSpace, TrimLeft, TrimRight;
    if r == [] {
      assert s == a + b && Blank(s);
      assert s == s + [];
      TrimLeftDrops(s, []);
      assert "" + "" == "";
      TrimRightDrops("", "");
    } else {
      assert s == a + (r + b);
      TrimLeftDrops(a, r + b);
      TrimRightDrops(r, b);
    }
  }

  lemma TrimmedIsStripped(s: string)
    ensures Strips(s, TrimSpace(s))
  {
    hide IsSpace;
    var l := TrimLeft(s);
    var t := TrimRight(l);
    var a := TrimLeftSplits(s);
    var b := TrimRightSplits(l);
    assert s == a + t + b;
    assert t != [] ==> t[0] == l[0];
  }

  /** Trimming gives the one text that is left when the surrounding white space is taken away. */
  lemma TrimStrips(s: string, r: string)
    ensures Strips(s, r) <==> r == TrimSpace(s)
  {
    hide IsSpace, TrimSpace;
    TrimmedIsStripped(s);
    if Strips(s, r) {
      var a, b :| Blank(a) && Blank(b) && s == a + r + b;
      StrippedIsTrimmed(s, a, r, b);
    }
  }

  function Lower(s: string): string {
    seq(|s|, i requires 0 <= i < |s| => if 'A' <= s[i] <= 'Z' then (s[i] as int - 'A' as int + 'a' as int) as char else s[i])
  }

  const PROTOCOLS := ["tcp", "udp", "http", "https", "stcp", "xtcp", "tcpmux"]

  function NormalizeProtocol(value: string): string {
    var v := Lower(TrimSpace(value));
    if v in PROTOCOLS then v else ""
  }

  /** The two words differ at most in capital letters of the first. */
  ghost predicate SameWord(t: string, k: string) {
    && |t| == |k|
    && forall i :: 0 <= i < |t| ==> k[i] == t[i] || ('A' <= t[i] <= 'Z' && k[i] as int == t[i] as int + 32)
  }

  /** The text, up to white space around it and capital letters, names the protocol `k`. */
  ghost predicate Spells(s: string, k: string) { k in PROTOCOLS && exists t :: Strips(s, t) && SameWord(t, k) }

  lemma LowerIsSameWord(t: string, k: string)
    requires forall i :: 0 <= i < |k| ==> !('A' <= k[i] <= 'Z')
    ensures SameWord(t, k) <==> Lower(t) == k
  {
    if SameWord(t, k) {
      forall i | 0 <= i < |t| ensures Lower(t)[i] == k[i] {}
    }
  }

  lemma ProtocolLetters(k: string)
    requires k in PROTOCOLS
    ensures k != [] && forall i :: 0 <= i < |k| ==> 'a' <= k[i] <= 'z'
  {
  }

  lemma NormalizedSpells(s: string)
    ensures NormalizeProtocol(s) == "" <==> forall k :: !Spells(s, k)
    ensures NormalizeProtocol(s) != "" ==> Spells(s, NormalizeProtocol(s))
    ensures forall k :: Spells(s, k) ==> k == NormalizeProtocol(s)
  {
    hide Strips, TrimSpace, Lower, SameWord;
    var v := TrimSpace(s);
    TrimStrips(s, v);
    forall k | k in PROTOCOLS ensures Spells(s, k) <==> Lower(v) == k {
      ProtocolLetters(k);
      LowerIsSameWord(v, k);
      if t :| Strips(s, t) && SameWord(t, k) { TrimStrips(s, t); }
    }
  }

  /** The length of a string in UTF-8. */
  function ByteLength(s: string): nat {
    if s == "" then 0
    else ByteLength(s[1..]) + (if s[0] < '\U{80}' then 1 else if s[0] < '\U{800}' then 2 else if s[0] < '\U{10000}' then 3 else 4)
  }

  // ---- What an acceptable request is -----------------------------------------------------

  datatype Proxy = Proxy(name: string, kind: string, localIp: string, localPort: int, remotePort: int,
                         domain: string, subdomain: string)
  {
    function Endpoint(): Allocation { Allocation(kind, remotePort) }
  }

  function Normal(p: Proxy): Proxy {
    var ip := TrimSpace(p.localIp);
    Proxy(TrimSpace(p.name), NormalizeProtocol(p.kind), if ip == "" then "127.0.0.1" else ip, p.localPort, p.remotePort,
          TrimSpace(p.domain), TrimSpace(p.subdomain))
  }

  /** What normalising means: ports stay, texts lose the white space around them, a missing address is the local one. */
  ghost predicate Normalises(raw: Proxy, p: Proxy) {
    && p.localPort == raw.localPort && p.remotePort == raw.remotePort
    && Strips(raw.name, p.name) && Strips(raw.domain, p.domain) && Strips(raw.subdomain, p.subdomain)
    && (if Blank(raw.localIp) then p.localIp == "127.0.0.1" else Strips(raw.localIp, p.localIp))
    && (if p.kind == "" then forall k :: !Spells(raw.kind, k) else Spells(raw.kind, p.kind))
  }

  lemma BlankTrims(s: string)
    ensures Blank(s) <==> TrimSpace(s) == ""
  {
    hide TrimSpace;
    TrimStrips(s, "");
    if Blank(s) { assert Blank("") && s == s + "" + ""; }
    if Strips(s, "") {
      var a, b :| Blank(a) && Blank(b) && s == a + "" + b;
      assert s == a + b;
    }
  }

  lemma NormalIsNormalised(raw: Proxy, p: Proxy)
    ensures Normalises(raw, p) <==> p == Normal(raw)
  {
    hide Strips, TrimSpace, Blank, Spells, NormalizeProtocol;
    TrimStrips(raw.name, p.name);
    TrimStrips(raw.domain, p.domain);
    TrimStrips(raw.subdomain, p.subdomain);
    TrimStrips(raw.localIp, p.localIp);
    BlankTrims(raw.localIp);
    NormalizedSpells(raw.kind);
  }

  /** A request that is clean already stays as it is. */
  lemma CleanIsUnchanged(p: Proxy)
    requires Strips(p.name, p.name) && Strips(p.domain, p.domain) && Strips(p.subdomain, p.subdomain)
    requires Strips(p.localIp, p.localIp) && p.localIp != "" && p.kind in PROTOCOLS
    ensures Normal(p) == p
  {
    hide TrimSpace, Strips;
    TrimStrips(p.name, p.name);
    TrimStrips(p.domain, p.domain);
    TrimStrips(p.subdomain, p.subdomain);
    TrimStrips(p.localIp, p.localIp);
    ProtocolIsClean(p.kind);
  }

  lemma LetterIsNoSpace(c: char)
    requires 'a' <= c <= 'z'
    ensures !IsSpace(c)
  {
  }

  lemma LettersStay(k: string)
    requires forall i :: 0 <= i < |k| ==> 'a' <= k[i] <= 'z'
    ensures Lower(k) == k
  {
  }

  lemma WordIsClean(k: string)
    requires k != [] && forall i :: 0 <= i < |k| ==> 'a' <= k[i] <= 'z'
    ensures TrimSpace(k) == k && Lower(k) == k
  {
    hide IsSpace, TrimSpace, Lower;
    LettersStay(k);
    LetterIsNoSpace(k[0]);
    LetterIsNoSpace(k[|k| - 1]);
    assert k == "" + k + "";
    StrippedIsTrimmed(k, "", k, "");
  }

  lemma ProtocolIsClean(k: string)
    requires k in PROTOCOLS
    ensures NormalizeProtocol(k) == k
  {
    hide TrimSpace, Lower;
    ProtocolLetters(k);
    WordIsClean(k);
  }

  function NormalAll(s: seq<Proxy>): seq<Proxy> { seq(|s|, i requires 0 <= i < |s| => Normal(s[i])) }

  /** What the request is checked against: the cached policy and grants, the node's ports, the leases. */
  datatype Limits = Limits(policy: Option<Policy>, tokenMax: int, nodeStart: int, nodeEnd: int, reserved: set<int>,
                           grants: seq<Grant>, leases: map<LeaseId, Lease>, now: int, token: int, client: string)
  {
    function PortStart(): int
      requires policy.Some?
    {
      Max(policy.value.portStart, nodeStart)
    }

    function PortEnd(): int
      requires policy.Some?
    {
      if policy.value.portEnd == 0 || policy.value.portEnd > nodeEnd then nodeEnd else policy.value.portEnd
    }
  }

  predicate Live(leases: map<LeaseId, Lease>, now: int, id: LeaseId) {
    id in leases && leases[id].active && leases[id].expires > now
  }

  predicate Holds(l: Lease, a: Allocation) { a in l.allocations.Values }

  /** An active, unexpired lease of another client holds the endpoint. */
  predicate InUse(leases: map<LeaseId, Lease>, now: int, token: int, client: string, a: Allocation) {
    exists id :: id in leases && Live(leases, now, id) && Holds(leases[id], a)
                 && !(leases[id].token == token && leases[id].client == client)
  }

  predicate GrantCovers(g: Grant, p: Proxy) {
    g.enabled && g.protocol == p.kind &&
    (if p.kind == "tcp" || p.kind == "udp" then g.portStart <= p.remotePort <= g.portEnd
     else if p.kind == "http" || p.kind == "https" || p.kind == "tcpmux"
     then (g.domain == "" || g.domain == p.domain) && (g.subdomain == "" || g.subdomain == p.subdomain)
     else true)
  }

  predicate ProxyOk(p: Proxy, w: Limits)
    requires w.policy.Some?
  {
    && p.name != "" && ByteLength(p.name) <= 48 && 0 < p.localPort <= 65535
    && (p.kind == "tcp" || p.kind == "udp") && p.kind in w.policy.value.protocols
    && w.PortStart() <= p.remotePort <= w.PortEnd()
    && w.nodeStart <= p.remotePort <= w.nodeEnd && p.remotePort !in w.reserved
    && !InUse(w.leases, w.now, w.token, w.client, p.Endpoint())
    && (w.grants != [] ==> exists i :: 0 <= i < |w.grants| && GrantCovers(w.grants[i], p))
  }

  predicate Distinct(s: seq<Proxy>) {
    forall i, j :: 0 <= i < j < |s| ==> s[i].name != s[j].name && s[i].Endpoint() != s[j].Endpoint()
  }

  predicate HeaderOk(n: nat, w: Limits) {
    && n > 0 && w.policy.Some? && w.policy.value.enabled
    && (w.policy.value.maxPorts > 0 ==> n <= w.policy.value.maxPorts)
    && (w.tokenMax > 0 ==> n <= w.tokenMax)
    && w.PortStart() <= w.PortEnd()
  }

  predicate Acceptable(s: seq<Proxy>, w: Limits) {
    && HeaderOk(|s|, w)
    && (forall i :: 0 <= i < |s| ==> ProxyOk(s[i], w))
    && Distinct(s)
  }

  // ---- The rules, on the request as it was sent ------------------------------------------

  /** One proxy against user policy, node and token, each rule on its own. */
  ghost predicate Within(p: Proxy, q: Policy, w: Limits) {
    && (p.kind == "tcp" || p.kind == "udp") && p.kind in q.protocols
    && p.name != "" && ByteLength(p.name) <= 48 && 1 <= p.localPort < 65536
    && q.portStart <= p.remotePort && (q.portEnd == 0 || p.remotePort <= q.portEnd)
    && w.nodeStart <= p.remotePort <= w.nodeEnd && p.remotePort !in w.reserved
    && (forall id :: id in w.leases && w.leases[id].active && w.leases[id].expires > w.now ==>
          || Allocation(p.kind, p.remotePort) !in w.leases[id].allocations.Values
          || (w.leases[id].token == w.token && w.leases[id].client == w.client))
    && (w.grants == [] || exists g :: g in w.grants && g.enabled && g.protocol == p.kind && g.portStart <= p.remotePort <= g.portEnd)
  }

  /** `rows` is the normalised form of the request, and every rule allows it. */
  ghost predicate Permits(raw: seq<Proxy>, rows: seq<Proxy>, w: Limits) {
    && 0 < |raw| == |rows| && (forall i :: 0 <= i < |raw| ==> Normalises(raw[i], rows[i]))
    && w.policy.Some? && w.policy.value.enabled
    && (w.policy.value.maxPorts <= 0 || |raw| <= w.policy.value.maxPorts) && (w.tokenMax <= 0 || |raw| <= w.tokenMax)
    && (forall i :: 0 <= i < |rows| ==> Within(rows[i], w.policy.value, w))
    && (forall i, j :: 0 <= i < j < |rows| ==>
          rows[i].name != rows[j].name && !(rows[i].kind == rows[j].kind && rows[i].remotePort == rows[j].remotePort))
  }

  lemma WithinIff(p: Proxy, w: Limits)
    requires w.policy.Some?
    ensures ProxyOk(p, w) <==> Within(p, w.policy.value, w)
  {
    hide ByteLength;
    if Within(p, w.policy.value, w) && w.grants != [] {
      var g :| g in w.grants && g.enabled && g.protocol == p.kind && g.portStart <= p.remotePort <= g.portEnd;
      var i :| 0 <= i < |w.grants| && w.grants[i] == g;
      assert GrantCovers(w.grants[i], p);
    }
  }

  /** A request has one normalised form, and it is acceptable exactly if the rules permit it. */
  lemma PermittedIff(raw: seq<Proxy>, rows: seq<Proxy>, w: Limits)
    ensures Permits(raw, rows, w) <==> rows == NormalAll(raw) && Acceptable(rows, w)
  {
    hide Normal, Normalises, ProxyOk, Within;
    if |rows| == |raw| {
      forall i | 0 <= i < |raw| ensures Normalises(raw[i], rows[i]) <==> rows[i] == Normal(raw[i]) {
        NormalIsNormalised(raw[i], rows[i]);
      }
      assert (forall i :: 0 <= i < |raw| ==> Normalises(raw[i], rows[i])) <==> rows == NormalAll(raw);
      if w.policy.Some? {
        forall i | 0 <= i < |rows| ensures ProxyOk(rows[i], w) <==> Within(rows[i], w.policy.value, w) { WithinIff(rows[i], w); }
        if 0 < |rows| && Within(rows[0], w.policy.value, w) { RangesMeet(rows[0], w); }
      }
    }
  }

  lemma PermittedExactly(raw: seq<Proxy>, w: Limits)
    ensures Acceptable(NormalAll(raw), w) <==> exists rows :: Permits(raw, rows, w)
    ensures Acceptable(NormalAll(raw), w) ==> Permits(raw, NormalAll(raw), w)
  {
    hide Permits, Acceptable;
    PermittedIff(raw, NormalAll(raw), w);
    if rows :| Permits(raw, rows, w) { PermittedIff(raw, rows, w); }
  }

  lemma RangesMeet(p: Proxy, w: Limits)
    requires w.policy.Some? && Within(p, w.policy.value, w)
    ensures w.PortStart() <= w.PortEnd()
  {
  }

  // ---- The two validators ----------------------------------------------------------------

  method MatchesAnyGrant(p: Proxy, grants: seq<Grant>) returns (ok: bool)
    ensures ok <==> exists i :: 0 <= i < |grants| && GrantCovers(grants[i], p)
    ensures ok <==> exists g :: g in grants && g.enabled && g.protocol == p.kind
                                && (p.kind in {"tcp", "udp"} ==> g.portStart <= p.remotePort <= g.portEnd)
                                && (p.kind in {"http", "https", "tcpmux"} ==> g.domain in {"", p.domain} && g.subdomain in {"", p.subdomain})
  {
    for i := 0 to |grants|
      invariant forall j :: 0 <= j < i ==> !GrantCovers(grants[j], p)
    {
      if !grants[i].enabled || grants[i].protocol != p.kind { continue; }
      if p.kind == "tcp" || p.kind == "udp" {
        if p.remotePort >= grants[i].portStart && p.remotePort <= grants[i].portEnd { return true; }
      } else if p.kind == "http" || p.kind == "https" || p.kind == "tcpmux" {
        var domainOk := grants[i].domain == "" || grants[i].domain == p.domain;
        var subdomainOk := grants[i].subdomain == "" || grants[i].subdomain == p.subdomain;
        if domainOk && subdomainOk { return true; }
      } else {
        return true;
      }
    }
    return false;
  }

  function Names(s: seq<Proxy>): set<string> { set i | 0 <= i < |s| :: s[i].name }

  function Endpoints(s: seq<Proxy>): set<Allocation> { set i | 0 <= i < |s| :: s[i].Endpoint() }

  /** The names and endpoints seen so far decide whether the next proxy repeats one. */
  lemma OneMoreProxy(s: seq<Proxy>, i: nat)
    requires i < |s|
    ensures Names(s[..i + 1]) == Names(s[..i]) + {s[i].name}
    ensures Endpoints(s[..i + 1]) == Endpoints(s[..i]) + {s[i].Endpoint()}
    ensures Distinct(s[..i + 1]) <==>
            Distinct(s[..i]) && s[i].name !in Names(s[..i]) && s[i].Endpoint() !in Endpoints(s[..i])
    ensures Distinct(s) ==> Distinct(s[..i + 1])
  {
    var a, b := s[..i], s[..i + 1];
    assert b == a + [s[i]];
    assert Names(b) == Names(a) + {s[i].name} by {
      forall x | x in Names(b) ensures x in Names(a) + {s[i].name} {
        var j :| 0 <= j < |b| && b[j].name == x;
        assert j < i ==> a[j].name == x;
      }
      forall x | x in Names(a) ensures x in Names(b) {
        var j :| 0 <= j < |a| && a[j].name == x;
        assert b[j].name == x;
      }
      assert b[i].name in Names(b);
    }
    assert Endpoints(b) == Endpoints(a) + {s[i].Endpoint()} by {
      forall x | x in Endpoints(b) ensures x in Endpoints(a) + {s[i].Endpoint()} {
        var j :| 0 <= j < |b| && b[j].Endpoint() == x;
        assert j < i ==> a[j].Endpoint() == x;
      }
      forall x | x in Endpoints(a) ensures x in Endpoints(b) {
        var j :| 0 <= j < |a| && a[j].Endpoint() == x;
        assert b[j].Endpoint() == x;
      }
      assert b[i].Endpoint() in Endpoints(b);
    }
    DistinctOneMore(a, s[i]);
  }

  lemma DistinctOneMore(a: seq<Proxy>, v: Proxy)
    ensures Distinct(a + [v]) <==> Distinct(a) && v.name !in Names(a) && v.Endpoint() !in Endpoints(a)
  {
    var b := a + [v];
    if Distinct(b) {
      forall i, j | 0 <= i < j < |a| ensures a[i].name != a[j].name && a[i].Endpoint() != a[j].Endpoint() {
        assert a[i] == b[i] && a[j] == b[j];
      }
      forall i | 0 <= i < |a| ensures a[i].name != v.name && a[i].Endpoint() != v.Endpoint() { assert a[i] == b[i] && b[|a|] == v; }
    } else {
      var i, j :| 0 <= i < j < |b| && (b[i].name == b[j].name || b[i].Endpoint() == b[j].Endpoint());
      assert b[i] == a[i];
      assert j < |a| ==> b[j] == a[j];
    }
  }

  method CheckEdgeProxy(v: Proxy, w: Limits) returns (ok: bool)
    requires w.policy.Some?
    ensures ok <==> ProxyOk(v, w)
  {
    if v.name == "" || v.localPort <= 0 || v.localPort > 65535 || (v.kind != "tcp" && v.kind != "udp") { return false; }
    if ByteLength(v.name) > 48 { return false; }
    if v.kind !in w.policy.value.protocols || v.remotePort < w.PortStart() || v.remotePort > w.PortEnd() { return false; }
    if v.remotePort < w.nodeStart || v.remotePort > w.nodeEnd || v.remotePort in w.reserved { return false; }
    if InUse(w.leases, w.now, w.token, w.client, v.Endpoint()) { return false; }
    if |w.grants| > 0 {
      var covered := MatchesAnyGrant(v, w.grants);
      if !covered { return false; }
    }
    return true;
  }

  method CheckBootstrapProxy(v: Proxy, w: Limits) returns (ok: bool)
    requires w.policy.Some?
    ensures ok <==> ProxyOk(v, w)
  {
    if v.name == "" || v.kind == "" || v.localPort <= 0 || v.localPort > 65535 { return false; }
    if ByteLength(v.name) > 48 { return false; }
    if v.kind !in w.policy.value.protocols { return false; }
    if v.kind != "tcp" && v.kind != "udp" { return false; }
    if v.remotePort < w.PortStart() || v.remotePort > w.PortEnd() { return false; }
    if v.remotePort < w.nodeStart || v.remotePort > w.nodeEnd || v.remotePort in w.reserved { return false; }
    if InUse(w.leases, w.now, w.token, w.client, v.Endpoint()) { return false; }
    var covered := MatchesAnyGrant(v, w.grants);
    if !covered {
      if |w.grants| > 0 { return false; }
    }
    return true;
  }

  /** The edge normalises the request in place while it checks it. */
  method ValidateEdgeProxies(input: array<Proxy>, w: Limits) returns (ok: bool)
    modifies input
    ensures ok <==> exists rows :: Permits(old(input[..]), rows, w)
    ensures ok ==> Permits(old(input[..]), input[..], w)
    ensures ok <==> Acceptable(NormalAll(old(input[..])), w)
    ensures ok ==> input[..] == NormalAll(old(input[..]))
  {
    hide Normal, ProxyOk, Distinct, Names, Endpoints, Permits;
    PermittedExactly(input[..], w);
    if !HeaderOk(input.Length, w) { return false; }
    ghost var want := NormalAll(input[..]);
    var names: set<string>, endpoints: set<Allocation> := {}, {};
    NothingSeen(want);
    for i := 0 to input.Length
      invariant forall j :: 0 <= j < input.Length ==> input[j] == if j < i then want[j] else old(input[j])
      invariant forall j :: 0 <= j < i ==> ProxyOk(want[j], w)
      invariant names == Names(want[..i]) && endpoints == Endpoints(want[..i]) && Distinct(want[..i])
    {
      input[i] := Normal(input[i]);
      var v := input[i];
      assert v == want[i];
      OneMoreProxy(want, i);
      if v.name in names || v.Endpoint() in endpoints { return false; }
      names, endpoints := names + {v.name}, endpoints + {v.Endpoint()};
      var sound := CheckEdgeProxy(v, w);
      if !sound { return false; }
    }
    assert want[..|want|] == want;
    assert input[..] == want;
    return true;
  }

  /** The controller builds a new list and checks in another order. */
  method ValidateBootstrapProxies(proxies: seq<Proxy>, w: Limits) returns (r: Option<seq<Proxy>>)
    ensures r.Some? <==> exists rows :: Permits(proxies, rows, w)
    ensures r.Some? ==> Permits(proxies, r.value, w)
    ensures r.Some? <==> Acceptable(NormalAll(proxies), w)
    ensures r.Some? ==> r.value == NormalAll(proxies)
  {
    hide Normal, ProxyOk, Distinct, Names, Endpoints, Permits;
    PermittedExactly(proxies, w);
    if !HeaderOk(|proxies|, w) { return None; }
    ghost var want := NormalAll(proxies);
    var normalized: seq<Proxy> := [];
    var names: set<string>, endpoints: set<Allocation> := {}, {};
    NothingSeen(want);
    for i := 0 to |proxies|
      invariant normalized == want[..i]
      invariant forall j :: 0 <= j < i ==> ProxyOk(want[j], w)
      invariant names == Names(want[..i]) && endpoints == Endpoints(want[..i]) && Distinct(want[..i])
    {
      var v := Normal(proxies[i]);
      assert v == want[i];
      OneMoreProxy(want, i);
      if v.name in names || v.Endpoint() in endpoints { return None; }
      names, endpoints := names + {v.name}, endpoints + {v.Endpoint()};
      var sound := CheckBootstrapProxy(v, w);
      if !sound { return None; }
      normalized := normalized + [v];
    }
    assert want[..|want|] == want;
    return Some(normalized);
  }

  lemma NothingSeen(s: seq<Proxy>)
    ensures Names(s[..0]) == {} && Endpoints(s[..0]) == {} && Distinct(s[..0])
  {
  }
}
