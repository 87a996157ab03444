/** The path tables of the event enricher. The pipeline proofs rest on their
    pairwise independence, which is established here. */
module DefaultFields {
  import opened Enumerations
  import opened JsonEdit
  import opened JsonEditLaws

  const HOSTS: Keys := ["cluster", "hosts"]
  const INFRA_ENVS: Keys := ["infra_envs"]

  function FieldsToUnpack(): seq<Path> {
    [ Plain(["cluster", "feature_usage"]),
      Plain(["cluster", "validations_info"]),
      Plain(["cluster", "connectivity_majority_groups"]),
      Each(HOSTS, ["inventory"]),
      Each(HOSTS, ["connectivity"]),
      Each(HOSTS, ["disks_info"]),
      Each(HOSTS, ["domain_name_resolutions"]),
      Each(HOSTS, ["free_addresses"]),
      Each(HOSTS, ["images_status"]),
      Each(HOSTS, ["ntp_sources"]),
      Each(HOSTS, ["validations_info"]) ]
  }

  function FieldsMapToListDropKey(): seq<Path> {
    [ Plain(["cluster", "feature_usage"]) ]
  }

  function FieldsMapToList(): seq<Path> {
    [ Plain(["cluster", "connectivity_majority_groups"]),
      Each(HOSTS, ["disks_info"]),
      Each(HOSTS, ["images_status"]) ]
  }

  function FieldsToDelete(): seq<Path> {
    [ Plain(["cluster", "pull_secret"]),
      Plain(["cluster", "ssh_public_key"]),
      Each(HOSTS, ["infra_env", "ssh_authorized_key"]),
      Each(INFRA_ENVS, ["ssh_authorized_key"]) ]
  }

  const CLUSTER_USER: Renaming := Renaming(Plain(["cluster", "user_name"]), Plain(["cluster", "user_id"]))
  const HOST_USER: Renaming := Renaming(Each(HOSTS, ["user_name"]), Each(HOSTS, ["user_id"]))
  const HOST_INFRA_ENV_USER: Renaming :=
    Renaming(Each(HOSTS, ["infra_env", "user_name"]), Each(HOSTS, ["infra_env", "user_id"]))
  const INFRA_ENV_USER: Renaming := Renaming(Each(INFRA_ENVS, ["user_name"]), Each(INFRA_ENVS, ["user_id"]))

  function FieldsToAnonymize(): map<Path, Path> {
    map[CLUSTER_USER.src := CLUSTER_USER.dst,
        HOST_USER.src := HOST_USER.dst,
        HOST_INFRA_ENV_USER.src := HOST_INFRA_ENV_USER.dst,
        INFRA_ENV_USER.src := INFRA_ENV_USER.dst]
  }

  /** One of the orders in which Go may visit the table. */
  function AnonymizeOrder(): seq<Path> {
    [CLUSTER_USER.src, HOST_USER.src, HOST_INFRA_ENV_USER.src, INFRA_ENV_USER.src]
  }

  ghost predicate IndependentTable(table: map<Path, Path>) {
    forall p, q :: p in table && q in table && p != q ==>
      IndependentRenamings(Renaming(p, table[p]), Renaming(q, table[q]))
  }

  function AnonymizeRenamings(): seq<Renaming> {
    [CLUSTER_USER, HOST_USER, HOST_INFRA_ENV_USER, INFRA_ENV_USER]
  }

  lemma RenamingPairs(i: nat, j: nat)
    requires i < j < 4
    ensures IndependentRenamings(AnonymizeRenamings()[i], AnonymizeRenamings()[j])
  {
  }

  lemma RenamingsAreIndependent(i: nat, j: nat)
    requires i < 4 && j < 4
    ensures i != j ==> IndependentRenamings(AnonymizeRenamings()[i], AnonymizeRenamings()[j])
    ensures SiblingRenaming(AnonymizeRenamings()[i])
  {
    if i < j {
      RenamingPairs(i, j);
    } else if j < i {
      RenamingPairs(j, i);
      IndependenceIsMutual(AnonymizeRenamings()[j], AnonymizeRenamings()[i]);
    }
  }

  /** The four anonymised fields and their targets never meet. */
  lemma AnonymizeTableIsIndependent()
    ensures IndependentTable(FieldsToAnonymize())
    ensures forall p :: p in FieldsToAnonymize() ==> SiblingRenaming(Renaming(p, FieldsToAnonymize()[p]))
  {
    var t, rs := FieldsToAnonymize(), AnonymizeRenamings();
    forall p | p in t
      ensures exists i: nat :: i < 4 && rs[i] == Renaming(p, t[p])
    {
      assert rs[0] == CLUSTER_USER && rs[1] == HOST_USER && rs[2] == HOST_INFRA_ENV_USER && rs[3] == INFRA_ENV_USER;
    }
    forall p, q | p in t && q in t
      ensures SiblingRenaming(Renaming(p, t[p]))
      ensures p != q ==> IndependentRenamings(Renaming(p, t[p]), Renaming(q, t[q]))
    {
      var i: nat :| i < 4 && rs[i] == Renaming(p, t[p]);
      var j: nat :| j < 4 && rs[j] == Renaming(q, t[q]);
      RenamingsAreIndependent(i, j);
    }
  }

  lemma AnonymizeOrderEnumerates()
    ensures Enumerates(AnonymizeOrder(), FieldsToAnonymize().Keys)
  {
    assert |["user_name"]| == 1 && |["infra_env", "user_name"]| == 2;
  }
}
