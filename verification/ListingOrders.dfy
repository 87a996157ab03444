/** The orders in which Go visits the objects that become lists: two runs of
    the pipeline agree on everything but the order inside those lists. */
module ListingOrders {
  import opened JsonValues
  import opened Enumerations
  import opened JsonEdit
  import opened MapToList
  import opened Anonymize
  import opened DefaultFields
  import opened Pipeline
  import opened ListingEffects
  import opened EventEnricher
  import HostsSummary

  /** Equal, or lists of the same elements in any order. */
  predicate Alike(v: Json, w: Json) {
    v == w || (v.Arr? && w.Arr? && multiset(v.elems) == multiset(w.elems))
  }

  predicate AlikeFields(v: Option<Json>, w: Option<Json>) {
    v == w || (v.Some? && w.Some? && Alike(v.value, w.value))
  }

  lemma SlicesAlike(m: map<string, Json>, ks: seq<string>, ks': seq<string>)
    requires Enumerates(ks, m.Keys) && Enumerates(ks', m.Keys)
    ensures Alike(SliceJson(KeyedItems(m, ks)), SliceJson(KeyedItems(m, ks')))
    ensures Alike(SliceJson(DroppedItems(m, ks)), SliceJson(DroppedItems(m, ks')))
  {
    EnumerationLength(ks, m.Keys);
    EnumerationLength(ks', m.Keys);
    EnumerationAsMultiset(ks, m.Keys);
    EnumerationAsMultiset(ks', m.Keys);
    ImagePermuted(k => KeyedItem(k, Entry(m, k)), ks, ks');
    ImagePermuted(k => Entry(m, k), ks, ks');
  }

  lemma ListerSteps(c: Codec, order: Iteration, site: Site, v: Json)
    requires !v.Null? && c.Unpack(v).Obj?
    ensures var m := c.Unpack(v).fields;
            && StepValue(c, KeyedLister(order), site, v) == SliceJson(KeyedItems(m, order(site, m)))
            && StepValue(c, DropKeyLister(order), site, v) == SliceJson(DroppedItems(m, order(site, m)))
  {
  }

  lemma ListersAlike(c: Codec, order: Iteration, order': Iteration, site: Site, v: Json)
    requires ValidIteration(order) && ValidIteration(order')
    ensures Alike(StepValue(c, KeyedLister(order), site, v), StepValue(c, KeyedLister(order'), site, v))
    ensures Alike(StepValue(c, DropKeyLister(order), site, v), StepValue(c, DropKeyLister(order'), site, v))
  {
    if !v.Null? && c.Unpack(v).Obj? {
      var m := c.Unpack(v).fields;
      ListerSteps(c, order, site, v);
      ListerSteps(c, order', site, v);
      SlicesAlike(m, order(site, m), order'(site, m));
    }
  }

  lemma ListsAreKept(c: Codec, order: Iteration, site: Site, v: Json)
    requires c.Lawful() && v.Arr?
    ensures StepValue(c, KeyedLister(order), site, v) == v
  {
    UnpackKeepsStructure(c, v);
  }

  /** The path is in a table that turns objects into lists. */
  predicate BecomesList(t: Tables, path: Path) {
    path in t.dropKey || path in t.keepKey
  }

  lemma ListedValuesAlike(c: Codec, setup: Setup, setup': Setup, path: Path, i: nat, v: Json)
    requires c.Lawful() && setup.Valid() && setup'.Valid() && setup.tables == setup'.tables
    ensures Alike(ListedValue(c, setup, path, i, v), ListedValue(c, setup', path, i, v))
    ensures !BecomesList(setup.tables, path) ==> ListedValue(c, setup, path, i, v) == ListedValue(c, setup', path, i, v)
  {
    var t, site := setup.tables, Site(path, i);
    var unpacked := PassValue(c, Unpacker(), t.unpack, path, i, v);
    var dropped := PassValue(c, DropKeyLister(setup.dropKey), t.dropKey, path, i, unpacked);
    var dropped' := PassValue(c, DropKeyLister(setup'.dropKey), t.dropKey, path, i, unpacked);
    ListersAlike(c, setup.dropKey, setup'.dropKey, site, unpacked);
    if dropped == dropped' {
      ListersAlike(c, setup.keepKey, setup'.keepKey, site, dropped);
    } else {
      ListsAreKept(c, setup.keepKey, site, dropped);
      ListsAreKept(c, setup'.keepKey, site, dropped');
    }
  }

  /** Two values of the field at `path`. */
  predicate SameField(t: Tables, path: Path, v: Option<Json>, w: Option<Json>) {
    AlikeFields(v, w) && (!BecomesList(t, path) ==> v == w)
  }

  ghost predicate SameHost(t: Tables, h: Json, h': Json) {
    forall f :: SameField(t, Each(HOSTS, [f]), Get(h, [f]), Get(h', [f]))
  }

  ghost predicate SameHosts(t: Tables, hosts: Option<Json>, hosts': Option<Json>) {
    || hosts == hosts'
    || (&& hosts.Some? && hosts.value.Arr? && hosts'.Some? && hosts'.value.Arr?
        && |hosts.value.elems| == |hosts'.value.elems|
        && forall i :: 0 <= i < |hosts.value.elems| ==> SameHost(t, hosts.value.elems[i], hosts'.value.elems[i]))
  }

  ghost predicate SameEvent(t: Tables, out: Json, out': Json) {
    && (forall f :: f != "cluster" && f != "infra_envs" && f != "host_summary" ==> Get(out, [f]) == Get(out', [f]))
    && Get(out, INFRA_ENVS) == Get(out', INFRA_ENVS)
    && SameHosts(t, Get(out, HOSTS), Get(out', HOSTS))
    && (forall f :: f != "hosts" ==>
          SameField(t, Plain(ClusterField(f)), Get(out, ClusterField(f)), Get(out', ClusterField(f))))
  }

  lemma LiftedAlike(c: Codec, setup: Setup, setup': Setup, path: Path, i: nat, v: Option<Json>)
    requires c.Lawful() && setup.Valid() && setup'.Valid() && setup.tables == setup'.tables
    ensures SameField(setup.tables, path, Lift(x => ListedValue(c, setup, path, i, x), v),
                      Lift(x => ListedValue(c, setup', path, i, x), v))
  {
    if v.Some? {
      ListedValuesAlike(c, setup, setup', path, i, v.value);
    }
  }

  lemma HostsAlike(c: Codec, setup: Setup, setup': Setup, i: nat, before: Json, after: Json, after': Json)
    requires c.Lawful() && setup.Valid() && setup'.Valid() && setup.tables == setup'.tables
    requires HostEnriched(c, setup, i, before, after) && HostEnriched(c, setup', i, before, after')
    ensures SameHost(setup.tables, after, after')
  {
    forall f
      ensures SameField(setup.tables, Each(HOSTS, [f]), Get(after, [f]), Get(after', [f]))
    {
      if f !in HOST_CHANGES {
        LiftedAlike(c, setup, setup', Each(HOSTS, [f]), i, Get(before, [f]));
      }
    }
  }

  lemma EventHostsAlike(c: Codec, setup: Setup, setup': Setup, base: Json,
      out: Json, summary: HostsSummary.Summary, out': Json, summary': HostsSummary.Summary)
    requires c.Lawful() && setup.Valid() && setup'.Valid() && setup.tables == setup'.tables && Shaped(base)
    requires Enriched(c, setup, base, out, summary) && Enriched(c, setup', base, out', summary')
    ensures SameHosts(setup.tables, Get(out, HOSTS), Get(out', HOSTS))
  {
    if Get(base, HOSTS).Some? && Get(base, HOSTS).value.Arr? {
      var hs := Get(base, HOSTS).value.elems;
      EnrichedHosts(c, setup, base, out, summary, hs);
      EnrichedHosts(c, setup', base, out', summary', hs);
      forall i: nat | i < |hs|
        ensures SameHost(setup.tables, Get(out, HOSTS).value.elems[i], Get(out', HOSTS).value.elems[i])
      {
        HostsAlike(c, setup, setup', i, hs[i], Get(out, HOSTS).value.elems[i], Get(out', HOSTS).value.elems[i]);
      }
    } else {
      NoHostsAreKept(c, setup, base, out, summary);
      NoHostsAreKept(c, setup', base, out', summary');
    }
  }

  lemma NoHostsAreKept(c: Codec, setup: Setup, base: Json, out: Json, summary: HostsSummary.Summary)
    requires c.Lawful() && setup.Valid() && Shaped(base) && Enriched(c, setup, base, out, summary)
    requires !(Get(base, HOSTS).Some? && Get(base, HOSTS).value.Arr?)
    ensures Get(out, HOSTS) == Get(base, HOSTS)
  {
    EnrichedGet(c, setup, base, out, summary, HOSTS);
    ListedShape(c, setup, base);
    EditedForm(c, setup, base);
  }

  /** The infra-envs do not depend on the orders at all. */
  lemma InfraEnvsAgree(c: Codec, setup: Setup, setup': Setup, base: Json,
      out: Json, summary: HostsSummary.Summary, out': Json, summary': HostsSummary.Summary)
    requires c.Lawful() && setup.Valid() && setup'.Valid() && Shaped(base)
    requires Enriched(c, setup, base, out, summary) && Enriched(c, setup', base, out', summary')
    ensures Get(out, INFRA_ENVS) == Get(out', INFRA_ENVS)
  {
    InfraEnvsMapped(c, setup, base, out, summary);
    InfraEnvsMapped(c, setup', base, out', summary');
    if Get(base, INFRA_ENVS).Some? && Get(base, INFRA_ENVS).value.Arr? {
      assert Get(out, INFRA_ENVS).value.elems == Get(out', INFRA_ENVS).value.elems;
    }
  }

  lemma InfraEnvsMapped(c: Codec, setup: Setup, base: Json, out: Json, summary: HostsSummary.Summary)
    requires c.Lawful() && setup.Valid() && Shaped(base) && Enriched(c, setup, base, out, summary)
    ensures MapsTo(Get(base, INFRA_ENVS), Get(out, INFRA_ENVS), e => FinalInfraEnv(c, e))
  {
    EnrichedGet(c, setup, base, out, summary, INFRA_ENVS);
    EditedForm(c, setup, base);
    ListedInfraEnvs(c, setup, base);
  }

  /** The fields of the cluster that anonymising and deleting are about. */
  function ChangedClusterValue(c: Codec, base: Json, f: string): Option<Json> {
    if f != "user_id" then None
    else match Get(base, CLUSTER_USER_NAME)
         case None => Get(base, CLUSTER_USER_ID)
         case Some(v) => Some(Pseudonym(c, v))
  }

  lemma ChangedClusterKeys(f: string)
    requires f in CLUSTER_CHANGES && f != "hosts"
    ensures if f == "user_id" then ClusterField(f) == CLUSTER_USER_ID
            else ClusterField(f) in {CLUSTER_USER_NAME, PULL_SECRET, SSH_PUBLIC_KEY}
  {
  }

  lemma ChangedClusterField(c: Codec, setup: Setup, base: Json, out: Json, summary: HostsSummary.Summary, f: string)
    requires c.Lawful() && setup.Valid() && Shaped(base) && Enriched(c, setup, base, out, summary)
    requires f in CLUSTER_CHANGES && f != "hosts"
    ensures Get(out, ClusterField(f)) == ChangedClusterValue(c, base, f)
  {
    EnrichedCluster(c, setup, base, out, summary);
    ChangedClusterKeys(f);
  }

  lemma ListedClusterFieldsAlike(c: Codec, setup: Setup, setup': Setup, base: Json,
      out: Json, summary: HostsSummary.Summary, out': Json, summary': HostsSummary.Summary, f: string)
    requires c.Lawful() && setup.Valid() && setup'.Valid() && setup.tables == setup'.tables && Shaped(base)
    requires Enriched(c, setup, base, out, summary) && Enriched(c, setup', base, out', summary')
    requires f !in CLUSTER_CHANGES
    ensures SameField(setup.tables, Plain(ClusterField(f)), Get(out, ClusterField(f)), Get(out', ClusterField(f)))
  {
    EnrichedClusterField(c, setup, base, out, summary, f);
    EnrichedClusterField(c, setup', base, out', summary', f);
    LiftedAlike(c, setup, setup', Plain(ClusterField(f)), 0, Get(base, ClusterField(f)));
  }

  /** Whatever orders Go chooses, in listing and in anonymising, two enriched
      events made of one base event agree on every field, but for the order of
      the elements in those fields that become lists. */
  lemma EventsAgree(c: Codec, setup: Setup, setup': Setup, base: Json,
      out: Json, summary: HostsSummary.Summary, out': Json, summary': HostsSummary.Summary)
    requires c.Lawful() && setup.Valid() && setup'.Valid() && setup.tables == setup'.tables && Shaped(base)
    requires Enriched(c, setup, base, out, summary) && Enriched(c, setup', base, out', summary')
    ensures SameEvent(setup.tables, out, out')
  {
    forall f | f != "cluster" && f != "infra_envs" && f != "host_summary"
      ensures Get(out, [f]) == Get(out', [f])
    {
      EnrichedTopLevel(c, setup, base, out, summary, f);
      EnrichedTopLevel(c, setup', base, out', summary', f);
    }
    InfraEnvsAgree(c, setup, setup', base, out, summary, out', summary');
    EventHostsAlike(c, setup, setup', base, out, summary, out', summary');
    forall f | f != "hosts"
      ensures SameField(setup.tables, Plain(ClusterField(f)), Get(out, ClusterField(f)), Get(out', ClusterField(f)))
    {
      if f in CLUSTER_CHANGES {
        ChangedClusterField(c, setup, base, out, summary, f);
        ChangedClusterField(c, setup', base, out', summary', f);
      } else {
        ListedClusterFieldsAlike(c, setup, setup', base, out, summary, out', summary', f);
      }
    }
  }
}
