/** The statistics over the hosts of an enriched event: how the infra-envs
    embedded in them are distributed over a few labels. Floating-point shares
    are modelled as reals. */
module HostsSummary {
  import opened JsonValues
  import opened Enumerations

  type Stats = map<string, map<string, real>>

  datatype Summary = Summary(
    heterogeneousArch: bool,
    hostCount: nat,
    infraEnv: Stats,
    isoType: string)

  /** The embedded infra-env, if it is an object. */
  function InfraEnvOf(host: Json): Option<map<string, Json>> {
    if host.Obj? && "infra_env" in host.fields && host.fields["infra_env"].Obj?
    then Some(host.fields["infra_env"].fields)
    else None
  }

  /** `strings.Replace(label, ".", "_", -1)` */
  function Normalized(text: string): string {
    seq(|text|, i requires 0 <= i < |text| => if text[i] == '.' then '_' else text[i])
  }

  function LabelIn(infraEnv: map<string, Json>, stat: string): Option<string> {
    if stat in infraEnv && infraEnv[stat].Str? then Some(Normalized(infraEnv[stat].s)) else None
  }

  function LabelOf(host: Json, stat: string): Option<string> {
    match InfraEnvOf(host)
    case None => None
    case Some(infraEnv) => LabelIn(infraEnv, stat)
  }

  /** A host has a label if its embedded infra-env is an object with a string
      there; the label is that string with every dot replaced. */
  lemma LabelIsNormalizedString(host: Json, stat: string)
    ensures InfraEnvOf(host).Some? <==>
            host.Obj? && "infra_env" in host.fields && host.fields["infra_env"].Obj?
    ensures LabelOf(host, stat).Some? <==>
            && host.Obj? && "infra_env" in host.fields && host.fields["infra_env"].Obj?
            && stat in host.fields["infra_env"].fields && host.fields["infra_env"].fields[stat].Str?
    ensures LabelOf(host, stat).Some? ==>
              var text, found := host.fields["infra_env"].fields[stat].s, LabelOf(host, stat).value;
              && |found| == |text|
              && forall i :: 0 <= i < |text| ==> found[i] == if text[i] == '.' then '_' else text[i]
  {
  }

  // ------------------------------------------------------------ Specification

  /** The hosts that have an infra-env. */
  ghost function Equipped(hosts: seq<Json>): multiset<Json> {
    Bag(EquippedHost(), hosts)
  }

  ghost function EquippedHost(): Json -> multiset<Json> {
    h => if InfraEnvOf(h).Some? then multiset{h} else multiset{}
  }

  /** The labels of one statistic, as often as they occur. */
  ghost function Tally(hosts: seq<Json>, stat: string): multiset<string> {
    Bag(HostLabel(stat), hosts)
  }

  ghost function HostLabel(stat: string): Json -> multiset<string> {
    h => if LabelOf(h, stat).Some? then multiset{LabelOf(h, stat).value} else multiset{}
  }

  /** `n` times `x`. */
  ghost function Times(n: nat, x: real): real {
    if n == 0 then 0.0 else x + Times(n - 1, x)
  }

  /** A statistic holds the labels that occur, each with its share of the
      hosts that have an infra-env. */
  ghost predicate IsDistribution(shares: map<string, real>, hosts: seq<Json>, stat: string) {
    && (forall l :: l in shares <==> l in Tally(hosts, stat))
    && (forall l :: l in shares ==> Times(|Equipped(hosts)|, shares[l]) == Tally(hosts, stat)[l] as real)
  }

  function Total(shares: map<string, real>, labels: seq<string>): real
    requires forall l :: l in labels ==> l in shares
    decreases |labels|
  {
    if labels == [] then 0.0 else shares[labels[0]] + Total(shares, labels[1..])
  }

  /** Some host has an infra-env, and all that have one agree on the label. */
  ghost predicate CommonLabel(hosts: seq<Json>, stat: string) {
    && (exists h :: h in hosts && InfraEnvOf(h).Some?)
    && (exists l: string :: AllLabelled(hosts, stat, l))
  }

  /** What the summary of a list of hosts says. Ties between the most frequent
      `type` labels are broken arbitrarily. */
  ghost predicate Summarizes(summary: Summary, hosts: seq<Json>) {
    && summary.hostCount == |hosts|
    && summary.infraEnv.Keys == STATS
    && (forall k :: k in STATS ==> IsDistribution(summary.infraEnv[k], hosts, k))
    && (summary.heterogeneousArch <==> !CommonLabel(hosts, "cpu_architecture"))
    && (Tally(hosts, "type") == multiset{} ==> summary.isoType == "")
    && (Tally(hosts, "type") != multiset{} ==> summary.isoType in Tally(hosts, "type"))
    && (forall l :: Tally(hosts, "type")[l] <= Tally(hosts, "type")[summary.isoType])
  }

  // -------------------------------------------------------------- Computation

  function Bump(counts: map<string, real>, found: Option<string>): map<string, real> {
    match found
    case None => counts
    case Some(l) => counts[l := (if l in counts then counts[l] else 0.0) + 1.0]
  }

  /** `updateInfraEnvStats`: the statistics are visited in arbitrary order. */
  method UpdateInfraEnvStats(stats: Stats, infraEnv: map<string, Json>) returns (updated: Stats)
    ensures updated.Keys == stats.Keys
    ensures forall k :: k in stats ==> updated[k] == Bump(stats[k], LabelIn(infraEnv, k))
  {
    updated := stats;
    var remaining := stats.Keys;
    while remaining != {}
      invariant remaining <= stats.Keys == updated.Keys
      invariant forall k :: k in stats ==>
                  updated[k] == if k in remaining then stats[k] else Bump(stats[k], LabelIn(infraEnv, k))
      decreases remaining
    {
      var k :| k in remaining;
      updated := updated[k := Bump(updated[k], LabelIn(infraEnv, k))];
      remaining := remaining - {k};
    }
  }

  /** `normalizeInfraEnvStats`. Dividing by a zero total gives infinities or
      NaN in floating point; `finite` says that nothing is divided by zero. */
  method NormalizeInfraEnvStats(stats: Stats, total: nat) returns (normalized: Stats, finite: bool)
    ensures normalized.Keys == stats.Keys
    ensures forall k :: k in stats ==> normalized[k].Keys == stats[k].Keys
    ensures finite <==> total > 0 || forall k :: k in stats ==> stats[k] == map[]
    ensures finite ==> forall k, l :: k in stats && l in stats[k] ==> Times(total, normalized[k][l]) == stats[k][l]
  {
    normalized, finite := stats, true;
    var remaining := stats.Keys;
    while remaining != {}
      invariant remaining <= stats.Keys == normalized.Keys
      invariant forall k :: k in remaining ==> normalized[k] == stats[k]
      invariant forall k :: k in stats ==> normalized[k].Keys == stats[k].Keys
      invariant finite <==> total > 0 || forall k :: k in stats && k !in remaining ==> stats[k] == map[]
      invariant finite ==> forall k, l :: k in stats && k !in remaining && l in stats[k] ==>
                             Times(total, normalized[k][l]) == stats[k][l]
      decreases remaining
    {
      var k :| k in remaining;
      var shares, quotients := NormalizeStat(stats[k], total);
      finite := finite && quotients;
      normalized := normalized[k := shares];
      remaining := remaining - {k};
    }
  }

  /** Its inner loop. */
  method NormalizeStat(counts: map<string, real>, total: nat) returns (shares: map<string, real>, finite: bool)
    ensures shares.Keys == counts.Keys
    ensures finite <==> total > 0 || counts == map[]
    ensures finite ==> forall l :: l in counts ==> Times(total, shares[l]) == counts[l]
  {
    shares, finite := counts, true;
    var labels := counts.Keys;
    while labels != {}
      invariant labels <= counts.Keys == shares.Keys
      invariant finite <==> total > 0 || labels == counts.Keys
      invariant forall l :: l in labels ==> shares[l] == counts[l]
      invariant finite ==> forall l :: l in counts && l !in labels ==> Times(total, shares[l]) == counts[l]
      decreases labels
    {
      var l :| l in labels;
      if total == 0 {
        finite := false;
      } else {
        TimesQuotient(total, shares[l]);
        shares := shares[l := shares[l] / total as real];
      }
      labels := labels - {l};
    }
    assert counts.Keys == {} <==> counts == map[];
  }

  /** `getHighestKeyValue`: for every iteration order the value is the maximum
      and the key one that attains it. Nothing that is not positive is found. */
  method GetHighestKeyValue(stats: map<string, real>) returns (key: string, value: real)
    ensures value >= 0.0 && forall l :: l in stats ==> stats[l] <= value
    ensures (forall l :: l in stats ==> stats[l] <= 0.0) ==> key == "" && value == 0.0
    ensures (exists l :: l in stats && stats[l] > 0.0) ==> key in stats && stats[key] == value
    ensures forall l :: l in stats && stats[l] > 0.0 && (forall l' :: l' in stats && l' != l ==> stats[l'] < stats[l])
              ==> key == l
  {
    key, value := "", 0.0;
    var remaining := stats.Keys;
    while remaining != {}
      invariant remaining <= stats.Keys
      invariant value >= 0.0
      invariant forall l :: l in stats && l !in remaining ==> stats[l] <= value
      invariant value == 0.0 ==> key == ""
      invariant value > 0.0 ==> key in stats && stats[key] == value
      decreases remaining
    {
      var k :| k in remaining;
      if stats[k] > value {
        value := stats[k];
        key := k;
      }
      remaining := remaining - {k};
    }
  }

  /** The counters of one statistic agree with its tally. */
  ghost predicate Counts(counts: map<string, real>, tally: multiset<string>) {
    && (forall l :: l in counts <==> l in tally)
    && (forall l :: l in counts ==> counts[l] == tally[l] as real)
  }

  const STATS: set<string> := {"type", "cpu_architecture", "openshift_version"}

  ghost predicate CountsHosts(stats: Stats, hosts: seq<Json>) {
    && stats.Keys == STATS
    && forall k :: k in stats ==> Counts(stats[k], Tally(hosts, k))
  }

  /** The counting loop of `AddHostsSummary`. */
  method CountHosts(hosts: seq<Json>) returns (hostCount: nat, totalInfraEnvs: nat, stats: Stats)
    ensures hostCount == |hosts|
    ensures totalInfraEnvs == |Equipped(hosts)|
    ensures CountsHosts(stats, hosts)
  {
    stats := map k | k in STATS :: map[];
    hostCount, totalInfraEnvs := 0, 0;
    NothingCounted(stats, hosts[..0]);
    for i := 0 to |hosts|
      invariant hostCount == i
      invariant totalInfraEnvs == |Equipped(hosts[..i])|
      invariant CountsHosts(stats, hosts[..i])
    {
      hostCount := hostCount + 1;
      ExtendEquipped(hosts, i);
      if InfraEnvOf(hosts[i]).Some? {
        totalInfraEnvs := totalInfraEnvs + 1;
      }
      ghost var before := stats;
      stats := CountHost(stats, hosts[i]);
      CountStep(before, stats, hosts, i);
    }
    assert hosts[..|hosts|] == hosts;
  }

  /** One host of that loop. */
  method CountHost(stats: Stats, host: Json) returns (updated: Stats)
    ensures updated.Keys == stats.Keys
    ensures forall k :: k in stats ==> updated[k] == Bump(stats[k], LabelOf(host, k))
  {
    updated := stats;
    var infraEnv := InfraEnvOf(host);
    if infraEnv.Some? {
      updated := UpdateInfraEnvStats(stats, infraEnv.value);
    }
  }

  lemma NothingCounted(stats: Stats, hosts: seq<Json>)
    requires hosts == [] && stats.Keys == STATS && forall k :: k in stats ==> stats[k] == map[]
    ensures CountsHosts(stats, hosts)
  {
  }

  lemma CountStep(before: Stats, after: Stats, hosts: seq<Json>, i: nat)
    requires i < |hosts| && CountsHosts(before, hosts[..i]) && after.Keys == before.Keys
    requires forall k :: k in before ==> after[k] == Bump(before[k], LabelOf(hosts[i], k))
    ensures CountsHosts(after, hosts[..i + 1])
  {
    forall k | k in after
      ensures Counts(after[k], Tally(hosts[..i + 1], k))
    {
      ExtendTally(hosts, i, k);
      BumpCounts(before[k], Tally(hosts[..i], k), LabelOf(hosts[i], k));
    }
  }

  lemma BumpCounts(counts: map<string, real>, tally: multiset<string>, found: Option<string>)
    requires Counts(counts, tally)
    ensures Counts(Bump(counts, found), tally + if found.Some? then multiset{found.value} else multiset{})
  {
  }

  lemma NothingWithoutInfraEnvs(stats: Stats, hosts: seq<Json>)
    requires CountsHosts(stats, hosts) && |Equipped(hosts)| == 0
    ensures forall k :: k in stats ==> stats[k] == map[]
  {
    forall k | k in stats
      ensures stats[k] == map[]
    {
      TallyIsBounded(hosts, k);
      assert stats[k].Keys == {};
    }
  }

  lemma SharesAreDistributions(stats: Stats, shares: Stats, hosts: seq<Json>)
    requires CountsHosts(stats, hosts) && shares.Keys == stats.Keys
    requires forall k :: k in stats ==> shares[k].Keys == stats[k].Keys
    requires forall k, l :: k in stats && l in stats[k] ==> Times(|Equipped(hosts)|, shares[k][l]) == stats[k][l]
    ensures forall k :: k in shares ==> IsDistribution(shares[k], hosts, k)
  {
    forall k | k in shares
      ensures IsDistribution(shares[k], hosts, k)
    {
      assert Counts(stats[k], Tally(hosts, k));
      assert shares[k].Keys == stats[k].Keys;
    }
  }

  /** The highest share of a statistic, and what it says about the hosts. */
  method HighestShare(shares: map<string, real>, hosts: seq<Json>, stat: string) returns (key: string, value: real)
    requires IsDistribution(shares, hosts, stat)
    ensures Tally(hosts, stat) == multiset{} ==> key == ""
    ensures Tally(hosts, stat) != multiset{} ==> key in Tally(hosts, stat)
    ensures forall l :: Tally(hosts, stat)[l] <= Tally(hosts, stat)[key]
    ensures value < 1.0 <==> !CommonLabel(hosts, stat)
  {
    SharesArePositive(shares, hosts, stat);
    key, value := GetHighestKeyValue(shares);
    HighestShareIsMostFrequent(shares, hosts, stat, key);
    HighestShareDecides(shares, hosts, stat, value);
  }

  /** `AddHostsSummary`. The iso type is a most frequent `type` label. */
  method AddHostsSummary(hosts: seq<Json>) returns (summary: Summary)
    ensures Summarizes(summary, hosts)
  {
    var hostCount, totalInfraEnvs, stats := CountHosts(hosts);
    if totalInfraEnvs == 0 {
      NothingWithoutInfraEnvs(stats, hosts);
    }
    var shares, finite := NormalizeInfraEnvStats(stats, totalInfraEnvs);
    assert finite;
    SharesAreDistributions(stats, shares, hosts);
    var isoType, _ := HighestShare(shares["type"], hosts, "type");
    var _, highest := HighestShare(shares["cpu_architecture"], hosts, "cpu_architecture");
    summary := Summary(highest < 1.0, hostCount, shares, isoType);
  }

  // ------------------------------------------------------------------- Lemmas

  lemma ExtendEquipped(hosts: seq<Json>, i: nat)
    requires i < |hosts|
    ensures |Equipped(hosts[..i + 1])| == |Equipped(hosts[..i])| + if InfraEnvOf(hosts[i]).Some? then 1 else 0
  {
    assert hosts[..i + 1] == hosts[..i] + [hosts[i]];
    BagAppend(EquippedHost(), hosts[..i], [hosts[i]]);
    BagOfOne(EquippedHost(), hosts[i]);
  }

  lemma ExtendTally(hosts: seq<Json>, i: nat, stat: string)
    requires i < |hosts|
    ensures Tally(hosts[..i + 1], stat) == Tally(hosts[..i], stat) + HostLabel(stat)(hosts[i])
  {
    assert hosts[..i + 1] == hosts[..i] + [hosts[i]];
    BagAppend(HostLabel(stat), hosts[..i], [hosts[i]]);
    BagOfOne(HostLabel(stat), hosts[i]);
  }

  lemma BagOfOne<A, B>(f: A -> multiset<B>, x: A)
    ensures Bag(f, [x]) == f(x)
  {
    assert [x][1..] == [];
  }

  /** Only hosts with an infra-env have labels, and at most one each. */
  lemma {:induction false} TallyIsBounded(hosts: seq<Json>, stat: string)
    ensures |Tally(hosts, stat)| <= |Equipped(hosts)|
    ensures |Tally(hosts, stat)| == |Equipped(hosts)| <==>
            forall h :: h in hosts && InfraEnvOf(h).Some? ==> LabelOf(h, stat).Some?
    decreases |hosts|
  {
    if hosts == [] {
    } else {
      TallyIsBounded(hosts[1..], stat);
      assert hosts == [hosts[0]] + hosts[1..];
    }
  }

  lemma {:induction false} EquippedMembers(hosts: seq<Json>)
    ensures |Equipped(hosts)| == 0 <==> forall h :: h in hosts ==> InfraEnvOf(h).None?
    decreases |hosts|
  {
    if hosts == [] {
    } else {
      EquippedMembers(hosts[1..]);
      assert hosts == [hosts[0]] + hosts[1..];
    }
  }

  lemma {:induction false} TimesIsProduct(n: nat, x: real)
    ensures Times(n, x) == n as real * x
  {
    if n == 0 {
    } else {
      TimesIsProduct(n - 1, x);
    }
  }

  lemma TimesQuotient(n: nat, x: real)
    requires n > 0
    ensures Times(n, x / n as real) == x
  {
    TimesIsProduct(n, x / n as real);
  }

  lemma QuotientOfTimes(n: nat, x: real, y: real)
    requires n > 0 && Times(n, x) == y
    ensures x == y / n as real
  {
    TimesIsProduct(n, x);
    QuotientOfProduct(n as real, x, y);
  }

  lemma QuotientOfProduct(n: real, x: real, y: real)
    requires n > 0.0 && n * x == y
    ensures x == y / n
  {
  }

  lemma {:induction false} TimesAdds(n: nat, x: real, y: real)
    ensures Times(n, x + y) == Times(n, x) + Times(n, y)
  {
    if n == 0 {
    } else {
      TimesAdds(n - 1, x, y);
    }
  }

  /** Order between shares is order between counts. */
  lemma {:induction false} TimesOrder(n: nat, x: real, y: real)
    ensures x <= y ==> Times(n, x) <= Times(n, y)
    ensures n > 0 && x < y ==> Times(n, x) < Times(n, y)
    ensures Times(n, 0.0) == 0.0
    ensures Times(n, 1.0) == n as real
  {
    if n == 0 {
    } else {
      TimesOrder(n - 1, x, y);
    }
  }

  /** Every share lies in (0, 1]. */
  lemma SharesArePositive(shares: map<string, real>, hosts: seq<Json>, stat: string)
    requires IsDistribution(shares, hosts, stat)
    ensures forall l :: l in shares ==> 0.0 < shares[l] <= 1.0
  {
    forall l | l in shares
      ensures 0.0 < shares[l] <= 1.0
    {
      FullCount(hosts, stat, l);
      TimesOrder(|Equipped(hosts)|, shares[l], 0.0);
      TimesOrder(|Equipped(hosts)|, 1.0, shares[l]);
    }
  }

  lemma {:induction false} SumOfCounts(shares: map<string, real>, t: multiset<string>, n: nat, labels: seq<string>)
    requires forall i, j :: 0 <= i < j < |labels| ==> labels[i] != labels[j]
    requires forall l :: l in labels ==> l in shares && Times(n, shares[l]) == t[l] as real
    requires forall l :: l in t ==> l in labels
    ensures Times(n, Total(shares, labels)) == |t| as real
    decreases |labels|
  {
    if labels == [] {
      TimesOrder(n, 0.0, 0.0);
      assert t == multiset{};
    } else {
      var first, rest := labels[0], labels[1..];
      var t' := t[first := 0];
      assert |t'| == |t| - t[first];
      assert first !in rest;
      SumOfCounts(shares, t', n, rest);
      TimesAdds(n, shares[first], Total(shares, rest));
    }
  }

  /** The shares of a statistic add up to at most one, in every order of
      addition, and to one exactly if some host has an infra-env and all that
      have one have a string there. */
  lemma SharesSum(shares: map<string, real>, hosts: seq<Json>, stat: string, labels: seq<string>)
    requires IsDistribution(shares, hosts, stat) && Enumerates(labels, shares.Keys)
    ensures Total(shares, labels) <= 1.0
    ensures Total(shares, labels) == 1.0 <==>
            && (exists h :: h in hosts && InfraEnvOf(h).Some?)
            && (forall h :: h in hosts && InfraEnvOf(h).Some? ==> LabelOf(h, stat).Some?)
  {
    var n, t, total := |Equipped(hosts)|, Tally(hosts, stat), Total(shares, labels);
    forall l | l in t ensures l in labels { assert l in shares.Keys; }
    SumOfCounts(shares, t, n, labels);
    TallyIsBounded(hosts, stat);
    EquippedMembers(hosts);
    if n == 0 {
      assert t == multiset{};
      assert shares.Keys == {};
    } else {
      TimesOrder(n, 1.0, total);
      TimesOrder(n, total, 1.0);
    }
  }

  /** The label with the highest share is a most frequent one. */
  lemma HighestShareIsMostFrequent(shares: map<string, real>, hosts: seq<Json>, stat: string, key: string)
    requires IsDistribution(shares, hosts, stat)
    requires shares == map[] ==> key == ""
    requires shares != map[] ==> key in shares && forall l :: l in shares ==> shares[l] <= shares[key]
    ensures Tally(hosts, stat) == multiset{} ==> key == ""
    ensures Tally(hosts, stat) != multiset{} ==> key in Tally(hosts, stat)
    ensures forall l :: Tally(hosts, stat)[l] <= Tally(hosts, stat)[key]
  {
    var n, t := |Equipped(hosts)|, Tally(hosts, stat);
    if t == multiset{} {
      assert shares.Keys == {};
    } else {
      var l0 :| l0 in t;
      assert l0 in shares;
      forall l
        ensures t[l] <= t[key]
      {
        if l in t {
          TimesOrder(n, shares[l], shares[key]);
        }
      }
    }
  }

  ghost predicate AllLabelled(hosts: seq<Json>, stat: string, l: string) {
    forall h :: h in hosts && InfraEnvOf(h).Some? ==> LabelOf(h, stat) == Some(l)
  }

  /** A label is counted for every infra-env exactly if all have it. */
  lemma {:induction false} FullCount(hosts: seq<Json>, stat: string, l: string)
    ensures Tally(hosts, stat)[l] <= |Equipped(hosts)|
    ensures Tally(hosts, stat)[l] == |Equipped(hosts)| <==> AllLabelled(hosts, stat, l)
    decreases |hosts|
  {
    if hosts == [] {
    } else {
      var first, rest := hosts[0], hosts[1..];
      FullCount(rest, stat, l);
      assert Tally(hosts, stat)[l] == HostLabel(stat)(first)[l] + Tally(rest, stat)[l];
      assert |Equipped(hosts)| == |EquippedHost()(first)| + |Equipped(rest)|;
      assert hosts == [first] + rest;
      assert AllLabelled(hosts, stat, l) <==>
             (InfraEnvOf(first).Some? ==> LabelOf(first, stat) == Some(l)) && AllLabelled(rest, stat, l);
    }
  }

  /** The highest share is below one exactly if there is no common label. */
  lemma HighestShareDecides(shares: map<string, real>, hosts: seq<Json>, stat: string, highest: real)
    requires IsDistribution(shares, hosts, stat)
    requires forall l :: l in shares ==> shares[l] <= highest
    requires shares == map[] ==> highest == 0.0
    requires shares != map[] ==> exists l :: l in shares && shares[l] == highest
    ensures highest < 1.0 <==> !CommonLabel(hosts, stat)
  {
    var n, t := |Equipped(hosts)|, Tally(hosts, stat);
    SharesArePositive(shares, hosts, stat);
    EquippedMembers(hosts);
    if !(highest < 1.0) {
      var l :| l in shares && shares[l] == highest;
      FullCount(hosts, stat, l);
      TimesOrder(n, 1.0, 1.0);
      assert shares[l] == 1.0;
    }
    if CommonLabel(hosts, stat) {
      var l: string :| AllLabelled(hosts, stat, l);
      FullCount(hosts, stat, l);
      assert l in shares;
      TimesOrder(n, shares[l], 1.0);
    }
  }

  lemma TalliesPermuted(hosts: seq<Json>, hosts': seq<Json>)
    requires multiset(hosts) == multiset(hosts')
    ensures Equipped(hosts) == Equipped(hosts')
    ensures forall k :: Tally(hosts, k) == Tally(hosts', k)
  {
    BagPermuted(EquippedHost(), hosts, hosts');
    forall k
      ensures Tally(hosts, k) == Tally(hosts', k)
    {
      BagPermuted(HostLabel(k), hosts, hosts');
    }
  }

  lemma CommonLabelPermuted(hosts: seq<Json>, hosts': seq<Json>, stat: string)
    requires multiset(hosts) == multiset(hosts') && CommonLabel(hosts, stat)
    ensures CommonLabel(hosts', stat)
  {
    var h :| h in hosts && InfraEnvOf(h).Some?;
    assert h in multiset(hosts');
    var l: string :| AllLabelled(hosts, stat, l);
    forall h | h in hosts' && InfraEnvOf(h).Some?
      ensures LabelOf(h, stat) == Some(l)
    {
      assert h in multiset(hosts);
    }
    assert AllLabelled(hosts', stat, l);
  }

  /** A summary of some hosts is one of the same hosts in any other order. */
  lemma SummaryPermuted(hosts: seq<Json>, summary: Summary, hosts': seq<Json>)
    requires multiset(hosts) == multiset(hosts') && Summarizes(summary, hosts)
    ensures Summarizes(summary, hosts')
  {
    TalliesPermuted(hosts, hosts');
    assert |multiset(hosts)| == |hosts| && |multiset(hosts')| == |hosts'|;
    forall k | k in STATS
      ensures IsDistribution(summary.infraEnv[k], hosts', k)
    {
      assert IsDistribution(summary.infraEnv[k], hosts, k);
    }
    CommonLabelInvariant(hosts, hosts', "cpu_architecture");
  }

  lemma CommonLabelInvariant(hosts: seq<Json>, hosts': seq<Json>, stat: string)
    requires multiset(hosts) == multiset(hosts')
    ensures CommonLabel(hosts, stat) <==> CommonLabel(hosts', stat)
  {
    if CommonLabel(hosts, stat) { CommonLabelPermuted(hosts, hosts', stat); }
    if CommonLabel(hosts', stat) { CommonLabelPermuted(hosts', hosts, stat); }
  }

  /** The shares of a statistic are determined by the hosts, up to order. */
  lemma DistributionIsUnique(shares: map<string, real>, shares': map<string, real>, hosts: seq<Json>,
      hosts': seq<Json>, stat: string)
    requires multiset(hosts) == multiset(hosts')
    requires IsDistribution(shares, hosts, stat) && IsDistribution(shares', hosts', stat)
    ensures shares == shares'
  {
    TalliesPermuted(hosts, hosts');
    TallyIsBounded(hosts, stat);
    assert shares.Keys == shares'.Keys;
    forall l | l in shares
      ensures shares[l] == shares'[l]
    {
      FullCount(hosts, stat, l);
      TimesOrder(|Equipped(hosts)|, shares[l], shares'[l]);
      TimesOrder(|Equipped(hosts)|, shares'[l], shares[l]);
    }
  }
}
