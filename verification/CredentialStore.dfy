/** Process-local secrets, and the revision counter that accompanies the model keys. */
module CredentialStore {
  import opened Ids
  import opened Wrappers

  datatype ModelCredentials = ModelCredentials(generation: Option<int>, embedding: Option<int>) {
    predicate IsEmpty() {
      generation.None? && embedding.None?
    }
  }

  const NO_KEYS := ModelCredentials(None, None)

  datatype Vault = Vault(models: map<int, ModelCredentials>, revisions: map<int, int>, passwords: map<int, int>)

  /** A secret passed to a service: left out, or given (None clears it). */
  datatype Argument = Omitted | Given(key: Option<int>)

  /** One atomic change: each runs under the store's own lock. */
  datatype Change =
    | PutModel(id: int, credentials: ModelCredentials)
    | DiscardModel(id: int)
    | PutPassword(id: int, password: Option<int>)
    | DiscardPassword(id: int)
    | ClearAll

  function Revision(v: Vault, id: int): int {
    if id in v.revisions then v.revisions[id] else 0
  }

  /** get_model(id) or ModelCredentials(). */
  function Keys(v: Vault, id: int): ModelCredentials {
    if id in v.models then v.models[id] else NO_KEYS
  }

  function Password(v: Vault, id: int): Option<int> {
    if id in v.passwords then Some(v.passwords[id]) else None
  }

  function Bump(v: Vault, id: int): map<int, int> {
    v.revisions[id := Revision(v, id) + 1]
  }

  function BumpAll(v: Vault): map<int, int> {
    map id | id in v.revisions.Keys + v.models.Keys ::
      if id in v.models then Revision(v, id) + 1 else Revision(v, id)
  }

  function Apply(v: Vault, c: Change): Vault {
    match c
    case PutModel(id, credentials) =>
      v.(revisions := Bump(v, id),
         models := if credentials.IsEmpty() then v.models - {id} else v.models[id := credentials])
    case DiscardModel(id) => v.(revisions := Bump(v, id), models := v.models - {id})
    case PutPassword(id, password) =>
      v.(passwords := if password.None? then v.passwords - {id} else v.passwords[id := password.value])
    case DiscardPassword(id) => v.(passwords := v.passwords - {id})
    case ClearAll => Vault(map[], BumpAll(v), map[])
  }

  function ApplyAll(v: Vault, changes: seq<Change>): Vault
    decreases |changes|
  {
    if changes == [] then v else ApplyAll(Apply(v, changes[0]), changes[1..])
  }

  /** At id the revision has not gone back, and while it stands still so do the keys. */
  predicate Kept(v: Vault, w: Vault, id: int) {
    && Revision(v, id) <= Revision(w, id)
    && (Revision(v, id) == Revision(w, id) ==> Keys(v, id) == Keys(w, id))
  }

  lemma {:induction false} ApplyKeeps(v: Vault, c: Change, id: int)
    ensures Kept(v, Apply(v, c), id)
  {
    if c.ClearAll? {
      assert id in v.models ==> id in BumpAll(v);
      assert id in v.revisions ==> id in BumpAll(v);
    }
  }

  /** Over any run of the store an unchanged revision vouches for unchanged keys. */
  lemma {:induction false} RunKeeps(v: Vault, changes: seq<Change>, id: int)
    ensures Kept(v, ApplyAll(v, changes), id)
    decreases |changes|
  {
    if changes != [] {
      ApplyKeeps(v, changes[0], id);
      RunKeeps(Apply(v, changes[0]), changes[1..], id);
    }
  }

  lemma {:induction false} ApplyAllJoins(v: Vault, before: seq<Change>, after: seq<Change>)
    ensures ApplyAll(v, before + after) == ApplyAll(ApplyAll(v, before), after)
    decreases |before|
  {
    if before == [] {
      assert before + after == after;
    } else {
      assert (before + after)[1..] == before[1..] + after;
      ApplyAllJoins(Apply(v, before[0]), before[1..], after);
    }
  }

  predicate Rekeys(v: Vault, c: Change, id: int) {
    (c.PutModel? && c.id == id) || (c.DiscardModel? && c.id == id) || (c.ClearAll? && id in v.models)
  }

  /** Writing the keys of an id moves its revision by one; clearing everything does exactly when keys are lost. */
  lemma {:induction false} RevisionMoves(v: Vault, c: Change, id: int)
    ensures Revision(Apply(v, c), id) == Revision(v, id) + if Rekeys(v, c, id) then 1 else 0
  {
    if c.ClearAll? {
      assert id in v.models ==> id in BumpAll(v);
      assert id in v.revisions ==> id in BumpAll(v);
    }
  }

  /** A change gives its id what it brings, clearing takes everything, and all else stays; no empty keys are held. */
  lemma {:induction false} ApplyTells(v: Vault, c: Change, id: int)
    ensures
      var w := Apply(v, c);
      && Keys(w, id) == (if c.PutModel? && c.id == id then c.credentials
                         else if (c.DiscardModel? && c.id == id) || c.ClearAll? then NO_KEYS else Keys(v, id))
      && (id in w.models <==> if c.PutModel? && c.id == id then !c.credentials.IsEmpty()
                              else id in v.models && !(c.DiscardModel? && c.id == id) && !c.ClearAll?)
      && Password(w, id) == (if c.PutPassword? && c.id == id then c.password
                             else if (c.DiscardPassword? && c.id == id) || c.ClearAll? then None else Password(v, id))
  {
    match c
    case PutModel(_, credentials) => assert credentials.IsEmpty() <==> credentials == NO_KEYS;
    case _ =>
  }

  class InMemoryCredentialStore {
    var modelCredentials: map<int, ModelCredentials>
    var modelRevisions: map<int, int>
    var datasourceCredentials: map<int, int>

    constructor ()
      ensures Contents() == Vault(map[], map[], map[])
    {
      modelCredentials, modelRevisions, datasourceCredentials := map[], map[], map[];
    }

    function Contents(): Vault
      reads this
    {
      Vault(modelCredentials, modelRevisions, datasourceCredentials)
    }

    method PutModelKeys(id: int, credentials: ModelCredentials)
      modifies this
      ensures Contents() == Apply(old(Contents()), PutModel(id, credentials))
    {
      var revision := ModelRevision(id);
      modelRevisions := modelRevisions[id := revision + 1];
      if credentials.IsEmpty() {
        modelCredentials := modelCredentials - {id};
      } else {
        modelCredentials := modelCredentials[id := credentials];
      }
    }

    method GetModel(id: int) returns (r: Option<ModelCredentials>)
      ensures r == if id in modelCredentials then Some(modelCredentials[id]) else None
    {
      r := if id in modelCredentials then Some(modelCredentials[id]) else None;
    }

    method DiscardModelKeys(id: int)
      modifies this
      ensures Contents() == Apply(old(Contents()), DiscardModel(id))
    {
      var revision := ModelRevision(id);
      modelRevisions := modelRevisions[id := revision + 1];
      modelCredentials := modelCredentials - {id};
    }

    method ModelRevision(id: int) returns (r: int)
      ensures r == Revision(Contents(), id)
    {
      r := if id in modelRevisions then modelRevisions[id] else 0;
    }

    method PutDatasource(id: int, password: Option<int>)
      modifies this
      ensures Contents() == Apply(old(Contents()), PutPassword(id, password))
    {
      match password {
        case None => datasourceCredentials := datasourceCredentials - {id};
        case Some(secret) => datasourceCredentials := datasourceCredentials[id := secret];
      }
    }

    method GetDatasource(id: int) returns (r: Option<int>)
      ensures r == Password(Contents(), id)
    {
      r := if id in datasourceCredentials then Some(datasourceCredentials[id]) else None;
    }

    method DiscardDatasource(id: int)
      modifies this
      ensures Contents() == Apply(old(Contents()), DiscardPassword(id))
    {
      datasourceCredentials := datasourceCredentials - {id};
    }

    /** Visits the ids that hold keys in any order, then empties both maps. */
    method Clear()
      modifies this
      ensures Contents() == Apply(old(Contents()), ClearAll)
    {
      ghost var before := Contents();
      var rest: set<int> := modelCredentials.Keys;
      while rest != {}
        invariant rest <= modelCredentials.Keys && modelCredentials == before.models
        invariant datasourceCredentials == before.passwords
        invariant modelRevisions.Keys == before.revisions.Keys + (before.models.Keys - rest)
        invariant forall id | id in modelRevisions ::
                    modelRevisions[id] == Revision(before, id) + if id in before.models && id !in rest then 1 else 0
        decreases rest
      {
        ghost var some := Member(rest);
        var id :| id in rest;
        var revision := ModelRevision(id);
        modelRevisions := modelRevisions[id := revision + 1];
        rest := rest - {id};
      }
      assert modelRevisions == BumpAll(before);
      modelCredentials, datasourceCredentials := map[], map[];
    }

    /** The other threads: any number of changes, each applied whole. */
    method Interleave() returns (ghost changes: seq<Change>)
      modifies this
      ensures Contents() == ApplyAll(old(Contents()), changes)
    {
      var n: nat := *;
      changes := [];
      while n > 0
        invariant Contents() == ApplyAll(old(Contents()), changes)
      {
        var change: Change := *;
        ghost var before := Contents();
        match change {
          case PutModel(id, credentials) => PutModelKeys(id, credentials);
          case DiscardModel(id) => DiscardModelKeys(id);
          case PutPassword(id, password) => PutDatasource(id, password);
          case DiscardPassword(id) => DiscardDatasource(id);
          case ClearAll => Clear();
        }
        ApplyAllJoins(old(Contents()), changes, [change]);
        assert ApplyAll(before, [change]) == Apply(before, change);
        changes := changes + [change];
        n := n - 1;
      }
    }
  }
}
