/** The list of addresses excluded from the VPN: printed by configure (internalsdk/ios/config.go),
    parsed by loadExcludedRoutes (ios/Tunnel/PacketTunnelProvider.swift). */
module ExcludeList {

  // Addr and MultiplexedAddr of a proxy, as the host each splits into: "" for ":443", and for an address
  // that does not split into a host and a port, since that error is ignored
  datatype Addr = NoAddr | Host(host: string)

  datatype Proxy = Proxy(addr: Addr, multiplexedAddr: Addr)

  // What the two sides mean //////////////////////////////////////////////////////////////////////

  function Concat(parts: seq<seq<string>>): seq<string> {
    if parts == [] then [] else Concat(parts[..|parts| - 1]) + parts[|parts| - 1]
  }

  function HostsOf(a: Addr): seq<string> {
    match a
    case NoAddr => []
    case Host(h) => [h]
  }

  function ProxyHosts(proxies: seq<Proxy>): seq<string> {
    if proxies == [] then []
    else
      var p := proxies[|proxies| - 1];
      ProxyHosts(proxies[..|proxies| - 1]) + HostsOf(p.addr) + HostsOf(p.multiplexedAddr)
  }

  /** What one more character does to the parts read so far. */
  function Extended(parts: seq<string>, c: char): (r: seq<string>)
    requires |parts| > 0
    ensures |r| > 0
  {
    if c == ',' then parts + [""] else parts[..|parts| - 1] + [parts[|parts| - 1] + [c]]
  }

  /** components(separatedBy: ","): always at least one part, possibly empty. */
  function Split(s: string): (parts: seq<string>)
    ensures |parts| > 0
  {
    if s == "" then [""] else Extended(Split(s[..|s| - 1]), s[|s| - 1])
  }

  function NonEmpty(parts: seq<string>): seq<string> {
    if parts == [] then []
    else NonEmpty(parts[..|parts| - 1]) + if parts[|parts| - 1] == "" then [] else [parts[|parts| - 1]]
  }

  predicate NoComma(s: string) {
    ',' !in s
  }

  predicate NoCommas(parts: seq<string>) {
    forall k :: 0 <= k < |parts| ==> NoComma(parts[k])
  }

  function Reversed(parts: seq<string>): seq<string> {
    if parts == [] then [] else [parts[|parts| - 1]] + Reversed(parts[..|parts| - 1])
  }

  // The two loops ////////////////////////////////////////////////////////////////////////////////

  /** One step of the masquerade loop, and of the proxy loop. */
  function Append(list: string, ip: string): string {
    if list == "" then ip else list + "," + ip
  }

  function Prepend(host: string, list: string): string {
    host + "," + list
  }

  function AppendAll(list: string, ips: seq<string>): string {
    if ips == [] then list else Append(AppendAll(list, ips[..|ips| - 1]), ips[|ips| - 1])
  }

  function PrependAll(list: string, hosts: seq<string>): string {
    if hosts == [] then list else Prepend(hosts[|hosts| - 1], PrependAll(list, hosts[..|hosts| - 1]))
  }

  /** The providers and the proxies come in the order the maps are ranged over. */
  method IpsToExclude(providers: seq<seq<string>>, proxies: seq<Proxy>) returns (list: string)
    ensures list == PrependAll(AppendAll("", Concat(providers)), ProxyHosts(proxies))
  {
    list := "";
    for i := 0 to |providers|
      invariant list == AppendAll("", Concat(providers[..i]))
    {
      assert providers[..i + 1][..i] == providers[..i];
      list := AddMasquerades(list, Concat(providers[..i]), providers[i]);
    }
    assert providers[..|providers|] == providers;
    list := AddProxies(list, proxies);
  }

  method AddMasquerades(soFar: string, ghost ips: seq<string>, masquerades: seq<string>) returns (list: string)
    requires soFar == AppendAll("", ips)
    ensures list == AppendAll("", ips + masquerades)
  {
    list := soFar;
    assert ips + masquerades[..0] == ips;
    for k := 0 to |masquerades|
      invariant list == AppendAll("", ips + masquerades[..k])
    {
      ghost var done := ips + masquerades[..k + 1];
      assert done[..|done| - 1] == ips + masquerades[..k];
      if list == "" {
        list := masquerades[k];
      } else {
        list := list + "," + masquerades[k];
      }
    }
    assert masquerades[..|masquerades|] == masquerades;
  }

  method AddProxies(ips: string, proxies: seq<Proxy>) returns (list: string)
    ensures list == PrependAll(ips, ProxyHosts(proxies))
  {
    list := ips;
    for i := 0 to |proxies|
      invariant list == PrependAll(ips, ProxyHosts(proxies[..i]))
    {
      assert proxies[..i + 1][..i] == proxies[..i];
      ghost var hosts := ProxyHosts(proxies[..i]);
      var p := proxies[i];
      list := AddHost(ips, hosts, list, p.addr);
      list := AddHost(ips, hosts + HostsOf(p.addr), list, p.multiplexedAddr);
    }
    assert proxies[..|proxies|] == proxies;
  }

  method AddHost(ghost ips: string, ghost hosts: seq<string>, soFar: string, addr: Addr) returns (list: string)
    requires soFar == PrependAll(ips, hosts)
    ensures list == PrependAll(ips, hosts + HostsOf(addr))
  {
    list := soFar;
    if addr.Host? {
      PrependOne(ips, hosts, addr.host);
      list := addr.host + "," + list;
    } else {
      assert hosts + [] == hosts;
    }
  }

  lemma PrependOne(list: string, hosts: seq<string>, host: string)
    ensures PrependAll(list, hosts + [host]) == host + "," + PrependAll(list, hosts)
  {
    assert (hosts + [host])[..|hosts|] == hosts;
  }

  /** loadExcludedRoutes: the two fixed routes, then one for each part of the file. */
  method LoadExcludedRoutes(realDnsHost: string, file: string) returns (routes: seq<string>)
    ensures routes == [realDnsHost, "127.0.0.1"] + Split(file)
  {
    routes := [realDnsHost];
    routes := routes + ["127.0.0.1"];
    var ips := Split(file);
    for k := 0 to |ips|
      invariant routes == [realDnsHost, "127.0.0.1"] + ips[..k]
    {
      routes := routes + [ips[k]];
    }
  }

  // Printing then parsing //////////////////////////////////////////////////////////////////////////

  lemma SplitLast(s: string, c: char)
    ensures Split(s + [c]) == Extended(Split(s), c)
  {
    assert (s + [c])[..|s|] == s;
  }

  lemma ExtendedSingle(x: string, c: char)
    requires c != ','
    ensures Extended([x], c) == [x + [c]]
  {
  }

  lemma {:induction false} SplitNoComma(s: string)
    requires NoComma(s)
    ensures Split(s) == [s]
    decreases |s|
  {
    if s != "" {
      var init, c := s[..|s| - 1], s[|s| - 1];
      assert s == init + [c];
      SplitNoComma(init);
      SplitLast(init, c);
      ExtendedSingle(init, c);
    }
  }

  lemma ExtendedSecond(x: seq<string>, y: seq<string>, c: char)
    requires |y| > 0
    ensures Extended(x + y, c) == x + Extended(y, c)
  {
    assert (x + y)[..|x + y| - 1] == x + y[..|y| - 1];
  }

  lemma {:induction false} SplitAtComma(a: string, b: string)
    ensures Split(a + "," + b) == Split(a) + Split(b)
    decreases |b|
  {
    if b == "" {
      assert a + "," + b == a + [','];
      SplitLast(a, ',');
    } else {
      var init, c := b[..|b| - 1], b[|b| - 1];
      SplitAtComma(a, init);
      assert a + "," + b == (a + "," + init) + [c];
      SplitLast(a + "," + init, c);
      ExtendedSecond(Split(a), Split(init), c);
    }
  }

  lemma {:induction false} NonEmptyAppend(a: seq<string>, b: seq<string>)
    ensures NonEmpty(a + b) == NonEmpty(a) + NonEmpty(b)
    decreases |b|
  {
    if b == [] {
      assert a + b == a;
    } else {
      assert (a + b)[..|a + b| - 1] == a + b[..|b| - 1];
      NonEmptyAppend(a, b[..|b| - 1]);
    }
  }

  lemma {:induction false} PartsOfAppendAll(ips: seq<string>)
    requires NoCommas(ips)
    ensures NonEmpty(Split(AppendAll("", ips))) == NonEmpty(ips)
  {
    if ips != [] {
      var init, ip := ips[..|ips| - 1], ips[|ips| - 1];
      PartsOfAppendAll(init);
      var list := AppendAll("", init);
      SplitNoComma(ip);
      if list != "" {
        SplitAtComma(list, ip);
        NonEmptyAppend(Split(list), Split(ip));
      }
      assert NonEmpty([ip]) == if ip == "" then [] else [ip];
    }
  }

  lemma SplitPrepended(host: string, rest: string)
    requires NoComma(host)
    ensures Split(Prepend(host, rest)) == [host] + Split(rest)
  {
    SplitAtComma(host, rest);
    SplitNoComma(host);
  }

  lemma {:induction false} PartsOfPrependAll(list: string, hosts: seq<string>)
    requires NoCommas(hosts)
    ensures Split(PrependAll(list, hosts)) == Reversed(hosts) + Split(list)
  {
    if hosts != [] {
      var init, host := hosts[..|hosts| - 1], hosts[|hosts| - 1];
      PartsOfPrependAll(list, init);
      SplitPrepended(host, PrependAll(list, init));
    }
  }

  /** Round trip, for any order of the maps: the non-empty parts of the printed list are the non-empty
      proxy hosts, last first, and then the non-empty masquerade addresses. */
  lemma RoundTrip(providers: seq<seq<string>>, proxies: seq<Proxy>)
    requires NoCommas(Concat(providers)) && NoCommas(ProxyHosts(proxies))
    ensures NonEmpty(Split(PrependAll(AppendAll("", Concat(providers)), ProxyHosts(proxies)))) ==
      NonEmpty(Reversed(ProxyHosts(proxies))) + NonEmpty(Concat(providers))
  {
    var list := AppendAll("", Concat(providers));
    PartsOfPrependAll(list, ProxyHosts(proxies));
    NonEmptyAppend(Reversed(ProxyHosts(proxies)), Split(list));
    PartsOfAppendAll(Concat(providers));
  }

  lemma {:induction false} ReversedIsPermutation(parts: seq<string>)
    ensures multiset(Reversed(parts)) == multiset(parts)
  {
    if parts != [] {
      ReversedIsPermutation(parts[..|parts| - 1]);
      assert parts == parts[..|parts| - 1] + [parts[|parts| - 1]];
    }
  }

  lemma {:induction false} NonEmptyOfNonEmpty(parts: seq<string>)
    requires "" !in parts
    ensures NonEmpty(parts) == parts
  {
    if parts != [] {
      NonEmptyOfNonEmpty(parts[..|parts| - 1]);
    }
  }

  function Where(addrs: seq<Addr>, h: string): set<nat> {
    set k | 0 <= k < |addrs| && addrs[k] == Host(h)
  }

  lemma WhereOneMore(addrs: seq<Addr>, a: Addr, h: string)
    ensures |Where(addrs + [a], h)| == |Where(addrs, h)| + if a == Host(h) then 1 else 0
  {
    var all, before := Where(addrs + [a], h), Where(addrs, h);
    if a == Host(h) {
      assert (addrs + [a])[|addrs|] == a;
      assert all == before + {|addrs|};
    } else {
      assert all == before;
    }
  }

  /** The proxies whose address, and whose multiplexed address, has host `h`. */
  function AddrIs(proxies: seq<Proxy>, h: string): set<nat> {
    Where(seq(|proxies|, k requires 0 <= k < |proxies| => proxies[k].addr), h)
  }

  function MultiplexedIs(proxies: seq<Proxy>, h: string): set<nat> {
    Where(seq(|proxies|, k requires 0 <= k < |proxies| => proxies[k].multiplexedAddr), h)
  }

  lemma OneMoreProxy(init: seq<Proxy>, p: Proxy, h: string)
    ensures |AddrIs(init + [p], h)| == |AddrIs(init, h)| + if p.addr == Host(h) then 1 else 0
    ensures |MultiplexedIs(init + [p], h)| == |MultiplexedIs(init, h)| + if p.multiplexedAddr == Host(h) then 1 else 0
  {
    var all := init + [p];
    var first := seq(|init|, k requires 0 <= k < |init| => init[k].addr);
    var second := seq(|init|, k requires 0 <= k < |init| => init[k].multiplexedAddr);
    assert seq(|all|, k requires 0 <= k < |all| => all[k].addr) == first + [p.addr];
    assert seq(|all|, k requires 0 <= k < |all| => all[k].multiplexedAddr) == second + [p.multiplexedAddr];
    WhereOneMore(first, p.addr, h);
    WhereOneMore(second, p.multiplexedAddr, h);
  }

  lemma HostCounted(a: Addr, h: string)
    ensures multiset(HostsOf(a))[h] == if a == Host(h) then 1 else 0
  {
  }

  lemma {:induction false} HostsCounted(proxies: seq<Proxy>, h: string)
    ensures multiset(ProxyHosts(proxies))[h] == |AddrIs(proxies, h)| + |MultiplexedIs(proxies, h)|
  {
    if proxies == [] {
      assert AddrIs(proxies, h) == {} && MultiplexedIs(proxies, h) == {};
    } else {
      var init, p := proxies[..|proxies| - 1], proxies[|proxies| - 1];
      HostsCounted(init, h);
      OneMoreProxy(init, p, h);
      assert init + [p] == proxies;
      HostCounted(p.addr, h);
      HostCounted(p.multiplexedAddr, h);
    }
  }

  lemma {:induction false} IpsCounted(providers: seq<seq<string>>, ip: string)
    ensures multiset(Concat(providers))[ip] ==
      |set i, j | 0 <= i < |providers| && 0 <= j < |providers[i]| && providers[i][j] == ip :: (i, j)|
  {
    if providers != [] {
      var n := |providers| - 1;
      var init := providers[..n];
      IpsCounted(init, ip);
      var before := set i, j | 0 <= i < |init| && 0 <= j < |init[i]| && init[i][j] == ip :: (i, j);
      var last := set j | 0 <= j < |providers[n]| && providers[n][j] == ip :: (n, j);
      assert (set i, j | 0 <= i < |providers| && 0 <= j < |providers[i]| && providers[i][j] == ip :: (i, j)) ==
        before + last;
      assert before !! last;
      OneProviderCounted(providers[n], ip, n);
    }
  }

  lemma {:induction false} OneProviderCounted(ips: seq<string>, ip: string, n: nat)
    ensures multiset(ips)[ip] == |set j | 0 <= j < |ips| && ips[j] == ip :: (n, j)|
  {
    if ips != [] {
      var m := |ips| - 1;
      var init := ips[..m];
      OneProviderCounted(init, ip, n);
      assert ips == init + [ips[m]];
      var before := set j | 0 <= j < m && init[j] == ip :: (n, j);
      assert (set j | 0 <= j < |ips| && ips[j] == ip :: (n, j)) == before + if ips[m] == ip then {(n, m)} else {};
    }
  }

  /** Counted one by one: every non-empty address is among the parts as often as it is the address of a
      proxy, the multiplexed address of a proxy, and a masquerade's. */
  lemma EveryAddressCounts(providers: seq<seq<string>>, proxies: seq<Proxy>, h: string)
    requires NoCommas(Concat(providers)) && NoCommas(ProxyHosts(proxies))
    requires "" !in Concat(providers) && "" !in ProxyHosts(proxies)
    ensures var printed := PrependAll(AppendAll("", Concat(providers)), ProxyHosts(proxies));
      multiset(NonEmpty(Split(printed)))[h] ==
        |AddrIs(proxies, h)| + |MultiplexedIs(proxies, h)| +
        |set i, j | 0 <= i < |providers| && 0 <= j < |providers[i]| && providers[i][j] == h :: (i, j)|
  {
    RoundTripKeepsAll(providers, proxies);
    HostsCounted(proxies, h);
    IpsCounted(providers, h);
  }

  /** With non-empty comma-free hosts nothing is lost, added or merged, whatever the order. */
  lemma RoundTripKeepsAll(providers: seq<seq<string>>, proxies: seq<Proxy>)
    requires NoCommas(Concat(providers)) && NoCommas(ProxyHosts(proxies))
    requires "" !in Concat(providers) && "" !in ProxyHosts(proxies)
    ensures multiset(NonEmpty(Split(PrependAll(AppendAll("", Concat(providers)), ProxyHosts(proxies))))) ==
      multiset(ProxyHosts(proxies)) + multiset(Concat(providers))
  {
    var hosts, ips := ProxyHosts(proxies), Concat(providers);
    RoundTrip(providers, proxies);
    ReversedIsPermutation(hosts);
    assert "" !in Reversed(hosts) by {
      assert "" !in multiset(hosts);
      assert "" !in multiset(Reversed(hosts));
    }
    NonEmptyOfNonEmpty(Reversed(hosts));
    NonEmptyOfNonEmpty(ips);
  }

  predicate AllEmpty(parts: seq<string>) {
    forall k :: 0 <= k < |parts| ==> parts[k] == ""
  }

  predicate CommaPair(s: string) {
    exists k :: 0 < k < |s| && s[k] == ',' && s[k - 1] == ','
  }

  /** Between commas, before the first one or after the last, `s` is empty somewhere. */
  predicate HasGap(s: string) {
    s == "" || s[0] == ',' || s[|s| - 1] == ',' || CommaPair(s)
  }

  lemma CommaPairOneMore(s: string, c: char)
    ensures CommaPair(s + [c]) <==> CommaPair(s) || (s != "" && c == ',' && s[|s| - 1] == ',')
  {
    var t := s + [c];
    if k :| 0 < k < |s| && s[k] == ',' && s[k - 1] == ',' {
      assert t[k] == ',' && t[k - 1] == ',';
    }
    if s != "" && c == ',' && s[|s| - 1] == ',' {
      assert t[|s|] == ',' && t[|s| - 1] == ',';
    }
    if k :| 0 < k < |t| && t[k] == ',' && t[k - 1] == ',' {
      assert k < |s| ==> s[k] == ',' && s[k - 1] == ',';
    }
  }

  // The last part, and the others, one character at a time
  lemma {:induction false} GapsSoFar(s: string)
    ensures var parts := Split(s); var most := parts[..|parts| - 1];
      && (parts[|parts| - 1] == "" <==> s == "" || s[|s| - 1] == ',')
      && ("" in most <==> s != "" && (s[0] == ',' || CommaPair(s)))
  {
    if s != "" {
      var init, c := s[..|s| - 1], s[|s| - 1];
      GapsSoFar(init);
      assert s == init + [c];
      CommaPairOneMore(init, c);
      var parts := Split(init);
      var most, last := parts[..|parts| - 1], parts[|parts| - 1];
      if c == ',' {
        assert Split(s)[..|Split(s)| - 1] == most + [last];
      } else {
        assert Split(s)[..|Split(s)| - 1] == most;
      }
    }
  }

  /** The parts include an empty one exactly when the text has such a gap. */
  lemma EmptyPartExactly(s: string)
    ensures "" in Split(s) <==> HasGap(s)
  {
    GapsSoFar(s);
    var parts := Split(s);
    assert parts == parts[..|parts| - 1] + [parts[|parts| - 1]];
  }

  /** Some address with a gap stands behind, or is, a non-empty one. */
  predicate GapAfterNonEmpty(ips: seq<string>) {
    exists j :: 0 <= j < |ips| && HasGap(ips[j]) && !AllEmpty(ips[..j + 1])
  }

  lemma GapAfterOneMore(ips: seq<string>, last: string)
    ensures GapAfterNonEmpty(ips + [last]) <==> GapAfterNonEmpty(ips) || (HasGap(last) && !AllEmpty(ips + [last]))
  {
    var all := ips + [last];
    if j :| 0 <= j < |ips| && HasGap(ips[j]) && !AllEmpty(ips[..j + 1]) {
      assert all[j] == ips[j] && all[..j + 1] == ips[..j + 1];
    }
    if HasGap(last) && !AllEmpty(all) {
      assert all[|ips|] == last && all[..|ips| + 1] == all;
    }
    if j :| 0 <= j < |all| && HasGap(all[j]) && !AllEmpty(all[..j + 1]) {
      if j < |ips| {
        assert all[j] == ips[j] && all[..j + 1] == ips[..j + 1];
      } else {
        assert all[..j + 1] == all;
      }
    }
  }

  lemma AllEmptyOneMore(parts: seq<string>, last: string)
    ensures AllEmpty(parts + [last]) <==> AllEmpty(parts) && last == ""
  {
    var all := parts + [last];
    assert all[|parts|] == last && forall k :: 0 <= k < |parts| ==> all[k] == parts[k];
  }

  lemma EmptyPartOfAppend(list: string, ip: string)
    ensures "" in Split(Append(list, ip)) <==> if list == "" then HasGap(ip) else "" in Split(list) || HasGap(ip)
    ensures Append(list, ip) == "" <==> list == "" && ip == ""
  {
    EmptyPartExactly(ip);
    SplitAtComma(list, ip);
  }

  /** The masquerade addresses lose their leading empty ones and keep the others. */
  lemma {:induction false} EmptyPartOfAppendAll(ips: seq<string>)
    ensures AppendAll("", ips) == "" <==> AllEmpty(ips)
    ensures "" in Split(AppendAll("", ips)) <==> AllEmpty(ips) || GapAfterNonEmpty(ips)
  {
    if ips != [] {
      var init, ip := ips[..|ips| - 1], ips[|ips| - 1];
      EmptyPartOfAppendAll(init);
      assert init + [ip] == ips;
      GapAfterOneMore(init, ip);
      AllEmptyOneMore(init, ip);
      EmptyPartOfAppend(AppendAll("", init), ip);
      if AllEmpty(init) {
        NoGapYet(init);
      }
    } else {
      assert Split("") == [""];
    }
  }

  lemma NoGapYet(ips: seq<string>)
    requires AllEmpty(ips)
    ensures !GapAfterNonEmpty(ips)
  {
  }

  predicate GapAmong(hosts: seq<string>) {
    exists k :: 0 <= k < |hosts| && HasGap(hosts[k])
  }

  lemma GapAmongOneMore(hosts: seq<string>, last: string)
    ensures GapAmong(hosts + [last]) <==> GapAmong(hosts) || HasGap(last)
  {
    var all := hosts + [last];
    if k :| 0 <= k < |hosts| && HasGap(hosts[k]) {
      assert all[k] == hosts[k];
    }
    assert all[|hosts|] == last;
  }

  lemma EmptyPartOfPrepend(host: string, list: string)
    ensures "" in Split(Prepend(host, list)) <==> HasGap(host) || "" in Split(list)
  {
    SplitAtComma(host, list);
    EmptyPartExactly(host);
  }

  lemma {:induction false} EmptyPartOfPrependAll(list: string, hosts: seq<string>)
    ensures "" in Split(PrependAll(list, hosts)) <==> "" in Split(list) || GapAmong(hosts)
  {
    if hosts != [] {
      var init, host := hosts[..|hosts| - 1], hosts[|hosts| - 1];
      EmptyPartOfPrependAll(list, init);
      EmptyPartOfPrepend(host, PrependAll(list, init));
      GapAmongOneMore(init, host);
      assert init + [host] == hosts;
    }
  }

  /** For all configs, the tunnel gets a route with an empty address exactly when some proxy has an empty
      host, or no masquerade address is non-empty, or an empty one follows a non-empty one; where a host
      or an address begins or ends with a comma, or has two in a row, that counts as empty too. */
  lemma EmptyRouteExactly(providers: seq<seq<string>>, proxies: seq<Proxy>)
    ensures var hosts, ips := ProxyHosts(proxies), Concat(providers);
      "" in Split(PrependAll(AppendAll("", ips), hosts)) <==>
        || GapAmong(hosts)
        || AllEmpty(ips)
        || GapAfterNonEmpty(ips)
  {
    var hosts, ips := ProxyHosts(proxies), Concat(providers);
    EmptyPartOfPrependAll(AppendAll("", ips), hosts);
    EmptyPartOfAppendAll(ips);
  }

  lemma OneProvider(ips: seq<string>)
    ensures Concat([ips]) == ips && ProxyHosts([]) == []
  {
    var one: seq<seq<string>> := [ips];
    assert one[..0] == [] && [] + ips == ips;
  }

  /** Such an input, with masquerades present: a proxy with an empty host. */
  lemma EmptyHostExample()
    ensures "" in Split(PrependAll(AppendAll("", Concat([["1.2.3.4"]])), ProxyHosts([Proxy(Host(""), NoAddr)])))
  {
    var p := Proxy(Host(""), NoAddr);
    assert [p][..0] == [];
    var hosts := ProxyHosts([p]);
    assert hosts == [] + [""] + [] == [""];
    assert HasGap(hosts[0]);
    EmptyRouteExactly([["1.2.3.4"]], [p]);
  }

  /** Two more: an empty masquerade address after another, and an address that ends in a comma. */
  lemma GapExamples(ips: seq<string>)
    requires ips == ["1.2.3.4", ""] || ips == ["1,"]
    ensures "" in Split(PrependAll(AppendAll("", Concat([ips])), ProxyHosts([])))
  {
    var j := |ips| - 1;
    assert ips[..j + 1] == ips && ips[0] != "" && HasGap(ips[j]);
    OneProvider(ips);
    EmptyRouteExactly([ips], []);
  }
}
