/** Task plans and their two-phase confirmation: the task-plan endpoints of
    agentManager/api.py over agentManager/domain/task_plan.py.  Confirming checks the plan
    under the lock, runs a hook without it, and checks and commits under it again. */
module TaskPlans {
  import opened Wrappers

  type Id = string
  type Time = int
  type Metadata = map<string, string>

  datatype ItemStatus = ItemPendingReview | ItemConfirmed | ItemInProgress | ItemCompleted | ItemFailed | ItemSkipped

  datatype PlanStatus = PlanDraft | PlanPendingReview | PlanConfirmed | PlanExecuting | PlanCompleted | PlanFailed

  /** An item as requested. */
  datatype ItemBody = ItemBody(
    id: Id, title: string, priority: int, dependencies: seq<Id>,
    assignee: string, workdir: string, verification: string, metadata: Metadata)

  datatype PlanItem = PlanItem(body: ItemBody, status: ItemStatus)

  datatype Plan = Plan(items: seq<PlanItem>, status: PlanStatus, metadata: Metadata, updatedAt: Time)

  /** An item and the id it depends on. */
  datatype Reference = Reference(item: Id, dependency: Id)

  datatype PlanError =
    | PlanExists | PlanNotFound | AlreadyConfirmed | HookFailed | Malformed
    | DuplicateIds(ids: seq<Id>) | DanglingReferences(references: seq<Reference>) | Unverified(ids: seq<Id>)

  // ---------- Validation ----------

  predicate WellFormedBody(b: ItemBody) {
    b.id != "" && b.title != "" && b.priority >= 0
  }

  predicate HasId(items: seq<PlanItem>, id: Id) {
    exists item :: item in items && item.body.id == id
  }

  predicate UniqueIds(items: seq<PlanItem>) {
    forall i, j :: 0 <= i < j < |items| ==> items[i].body.id != items[j].body.id
  }

  predicate Dangling(items: seq<PlanItem>, item: PlanItem, dep: Id) {
    item in items && dep in item.body.dependencies && !HasId(items, dep)
  }

  /** Ids are unique and every dependency is the id of an item. */
  ghost predicate Resolved(items: seq<PlanItem>) {
    UniqueIds(items) && forall item, dep :: !Dangling(items, item, dep)
  }

  predicate Verified(items: seq<PlanItem>) {
    forall item :: item in items ==> item.body.verification != ""
  }

  function IdSet(items: seq<PlanItem>): set<Id> {
    set item | item in items :: item.body.id
  }

  lemma {:induction false} UniqueIffCounts(items: seq<PlanItem>)
    ensures |IdSet(items)| <= |items|
    ensures |IdSet(items)| == |items| <==> UniqueIds(items)
  {
    hide IdSet, UniqueIds;
    if items == [] {
      NoIds(items);
    } else {
      var n := |items| - 1;
      var rest, last := items[..n], items[n].body.id;
      UniqueIffCounts(rest);
      LastId(items);
      if last in IdSet(rest) {
        assert IdSet(rest) + {last} == IdSet(rest);
      }
    }
  }

  lemma NoIds(items: seq<PlanItem>)
    requires items == []
    ensures IdSet(items) == {} && UniqueIds(items)
  {
  }

  lemma LastId(items: seq<PlanItem>)
    requires items != []
    ensures var n := |items| - 1;
      && IdSet(items) == IdSet(items[..n]) + {items[n].body.id}
      && (UniqueIds(items) <==> UniqueIds(items[..n]) && items[n].body.id !in IdSet(items[..n]))
  {
    var n := |items| - 1;
    var rest, last := items[..n], items[n].body.id;
    assert items == rest + [items[n]];
    if last in IdSet(rest) {
      var twin :| twin in rest && twin.body.id == last;
      var i :| 0 <= i < n && rest[i] == twin;
      assert items[i].body.id == items[n].body.id;
    } else {
      assert forall i :: 0 <= i < n ==> items[i] == rest[i] && rest[i] in rest;
    }
  }

  ghost predicate Repeated(items: seq<PlanItem>, id: Id) {
    exists i, j :: 0 <= i < j < |items| && items[i].body.id == id && items[j].body.id == id
  }

  /** The loop that collects repeated ids: each once. */
  method CollectDuplicates(items: seq<PlanItem>) returns (duplicates: seq<Id>)
    ensures forall id :: id in duplicates <==> Repeated(items, id)
    ensures forall i, j :: 0 <= i < j < |duplicates| ==> duplicates[i] != duplicates[j]
  {
    duplicates := [];
    var seen := {};
    for k := 0 to |items|
      invariant forall id :: id in seen <==> exists i :: 0 <= i < k && items[i].body.id == id
      invariant forall id :: id in duplicates <==> Repeated(items[..k], id)
      invariant forall i, j :: 0 <= i < j < |duplicates| ==> duplicates[i] != duplicates[j]
    {
      var id := items[k].body.id;
      RepeatedOneMore(items, k);
      if id in seen && id !in duplicates {
        duplicates := duplicates + [id];
      }
      seen := seen + {id};
    }
    assert items[..|items|] == items;
  }

  predicate Occurs(items: seq<PlanItem>, k: nat, id: Id)
    requires k <= |items|
  {
    exists i :: 0 <= i < k && items[i].body.id == id
  }

  lemma RepeatedOneMore(items: seq<PlanItem>, k: nat)
    requires k < |items|
    ensures forall id :: Repeated(items[..k + 1], id) <==>
      Repeated(items[..k], id) || (id == items[k].body.id && Occurs(items, k, id))
  {
    hide Repeated, Occurs;
    forall id ensures Repeated(items[..k + 1], id) <==>
      Repeated(items[..k], id) || (id == items[k].body.id && Occurs(items, k, id))
    {
      if Repeated(items[..k + 1], id) {
        RepeatedLater(items, k, id);
      } else {
        RepeatedBefore(items, k, id);
      }
    }
  }

  lemma RepeatedLater(items: seq<PlanItem>, k: nat, id: Id)
    requires k < |items| && Repeated(items[..k + 1], id)
    ensures Repeated(items[..k], id) || (id == items[k].body.id && Occurs(items, k, id))
  {
    var more, less := items[..k + 1], items[..k];
    var i, j :| 0 <= i < j < |more| && more[i].body.id == id && more[j].body.id == id;
    if j < k {
      assert less[i].body.id == id && less[j].body.id == id;
    } else {
      assert items[i].body.id == id;
    }
  }

  lemma RepeatedBefore(items: seq<PlanItem>, k: nat, id: Id)
    requires k < |items|
    ensures Repeated(items[..k], id) || (id == items[k].body.id && Occurs(items, k, id)) ==>
      Repeated(items[..k + 1], id)
  {
    var more, less := items[..k + 1], items[..k];
    if Repeated(less, id) {
      var i, j :| 0 <= i < j < |less| && less[i].body.id == id && less[j].body.id == id;
      assert more[i].body.id == id && more[j].body.id == id;
    } else if id == items[k].body.id && Occurs(items, k, id) {
      var i :| 0 <= i < k && items[i].body.id == id;
      assert more[i].body.id == id && more[k].body.id == id;
    }
  }

  /** The references of one item that lead nowhere. */
  method DanglingOf(items: seq<PlanItem>, item: PlanItem) returns (references: seq<Reference>)
    requires item in items
    ensures forall r :: r in references <==> r.item == item.body.id && Dangling(items, item, r.dependency)
  {
    references := [];
    var dependencies := item.body.dependencies;
    for k := 0 to |dependencies|
      invariant forall r :: r in references <==>
        r.item == item.body.id && r.dependency in dependencies[..k] && !HasId(items, r.dependency)
    {
      if dependencies[k] !in IdSet(items) {
        references := references + [Reference(item.body.id, dependencies[k])];
      }
      assert dependencies[..k + 1] == dependencies[..k] + [dependencies[k]];
    }
  }

  ghost predicate IsDangling(items: seq<PlanItem>, among: seq<PlanItem>, r: Reference) {
    exists item :: item in among && r.item == item.body.id && Dangling(items, item, r.dependency)
  }

  method CollectDangling(items: seq<PlanItem>) returns (references: seq<Reference>)
    ensures forall r :: r in references <==> IsDangling(items, items, r)
  {
    references := [];
    for k := 0 to |items|
      invariant forall r :: r in references <==> IsDangling(items, items[..k], r)
    {
      var more := DanglingOf(items, items[k]);
      assert items[..k + 1] == items[..k] + [items[k]];
      assert forall item :: item in items[..k + 1] <==> item in items[..k] || item == items[k];
      references := references + more;
    }
    assert items[..|items|] == items;
  }

  /** Accepts exactly resolved items; otherwise names exactly the repeated ids, or exactly
      the references that lead nowhere. */
  method ValidateDependencies(items: seq<PlanItem>) returns (r: Result<(), PlanError>)
    ensures r.Ok? <==> Resolved(items)
    ensures r.Err? && !UniqueIds(items) ==>
      r.error.DuplicateIds? && r.error.ids != [] && forall id :: id in r.error.ids <==> Repeated(items, id)
    ensures r.Err? && UniqueIds(items) ==>
      && r.error.DanglingReferences? && r.error.references != []
      && forall ref :: ref in r.error.references <==>
           exists item ::
             && item in items && item.body.id == ref.item && ref.dependency in item.body.dependencies
             && forall other :: other in items ==> other.body.id != ref.dependency
  {
    UniqueIffCounts(items);
    if |IdSet(items)| != |items| {
      var duplicates := CollectDuplicates(items);
      var i, j :| 0 <= i < j < |items| && items[i].body.id == items[j].body.id;
      assert Repeated(items, items[i].body.id);
      return Err(DuplicateIds(duplicates));
    }
    var references := CollectDangling(items);
    if references != [] {
      assert references[0] in references && IsDangling(items, items, references[0]);
      return Err(DanglingReferences(references));
    }
    forall item, dep ensures !Dangling(items, item, dep) {
      if Dangling(items, item, dep) {
        assert IsDangling(items, items, Reference(item.body.id, dep));
      }
    }
    return Ok(());
  }

  method ValidateVerification(items: seq<PlanItem>) returns (r: Result<(), PlanError>)
    ensures r.Ok? <==> Verified(items)
    ensures r.Err? ==> r.error.Unverified? && forall id ::
      id in r.error.ids <==> exists item :: item in items && item.body.id == id && item.body.verification == ""
  {
    var missing: seq<Id> := [];
    for k := 0 to |items|
      invariant forall id :: id in missing <==>
        exists item :: item in items[..k] && item.body.id == id && item.body.verification == ""
    {
      assert items[..k + 1] == items[..k] + [items[k]];
      assert forall item :: item in items[..k + 1] <==> item in items[..k] || item == items[k];
      if items[k].body.verification == "" {
        missing := missing + [items[k].body.id];
      }
    }
    assert items[..|items|] == items;
    if missing != [] {
      assert missing[0] in missing;
      return Err(Unverified(missing));
    }
    forall item | item in items ensures item.body.verification != "" {
      assert item.body.verification == "" ==> item.body.id in missing;
    }
    return Ok(());
  }

  predicate IsInvalid(e: PlanError) {
    e.DuplicateIds? || e.DanglingReferences? || e.Unverified?
  }

  // ---------- Building and confirming items ----------

  /** The status kept for an id: that of the last item with it, or pending review. */
  function StatusIn(items: seq<PlanItem>, id: Id): ItemStatus {
    if items == [] then ItemPendingReview
    else
      var n := |items| - 1;
      if items[n].body.id == id then items[n].status else StatusIn(items[..n], id)
  }

  /** The status of the last item with this id decides, and pending review where there is none. */
  lemma {:induction false} StatusIsLast(items: seq<PlanItem>, id: Id, k: nat)
    ensures (forall item :: item in items ==> item.body.id != id) ==> StatusIn(items, id) == ItemPendingReview
    ensures k < |items| && items[k].body.id == id && (forall j :: k < j < |items| ==> items[j].body.id != id) ==>
      StatusIn(items, id) == items[k].status
  {
    if items != [] {
      var n := |items| - 1;
      assert items == items[..n] + [items[n]] && items[n] in items;
      StatusIsLast(items[..n], id, k);
    }
  }

  ghost function Rebuilt(old': seq<PlanItem>, bodies: seq<ItemBody>): (r: seq<PlanItem>)
    ensures |r| == |bodies|
    ensures forall i :: 0 <= i < |r| ==> r[i] == PlanItem(bodies[i], StatusIn(old', bodies[i].id))
  {
    seq(|bodies|, i requires 0 <= i < |bodies| => PlanItem(bodies[i], StatusIn(old', bodies[i].id)))
  }

  method StatusesById(items: seq<PlanItem>) returns (statuses: map<Id, ItemStatus>)
    ensures forall id :: (if id in statuses then statuses[id] else ItemPendingReview) == StatusIn(items, id)
  {
    statuses := map[];
    for k := 0 to |items|
      invariant forall id :: (if id in statuses then statuses[id] else ItemPendingReview) == StatusIn(items[..k], id)
    {
      assert items[..k + 1][..k] == items[..k];
      statuses := statuses[items[k].body.id := items[k].status];
    }
    assert items[..|items|] == items;
  }

  predicate WellFormedBodies(bodies: seq<ItemBody>) {
    forall b :: b in bodies ==> WellFormedBody(b)
  }

  /** The items of a request; an item without id or title, or of negative priority, raises. */
  method BuildItems(old': seq<PlanItem>, bodies: seq<ItemBody>) returns (r: Option<seq<PlanItem>>)
    ensures r.Some? <==> WellFormedBodies(bodies)
    ensures r.Some? ==> r.value == Rebuilt(old', bodies)
  {
    var statuses := StatusesById(old');
    var items: seq<PlanItem> := [];
    for k := 0 to |bodies|
      invariant |items| == k
      invariant forall i :: 0 <= i < k ==> WellFormedBody(bodies[i]) && items[i] == Rebuilt(old', bodies)[i]
    {
      if bodies[k].id == "" || bodies[k].title == "" || bodies[k].priority < 0 {
        assert bodies[k] in bodies;
        return None;
      }
      var status := if bodies[k].id in statuses then statuses[bodies[k].id] else ItemPendingReview;
      items := items + [PlanItem(bodies[k], status)];
    }
    return Some(items);
  }

  /** `dict.setdefault` */
  function SetDefault(m: Metadata, key: string, value: string): Metadata {
    if key in m then m else m[key := value]
  }

  function Injected(b: ItemBody, planId: Id): Metadata {
    var m := if b.assignee == "" then b.metadata else SetDefault(b.metadata, "agent_id", b.assignee);
    var m' := if b.workdir == "" then m else SetDefault(m, "workdir", b.workdir);
    SetDefault(m', "plan_id", planId)
  }

  function ConfirmedItem(item: PlanItem, planId: Id): PlanItem {
    PlanItem(item.body.(metadata := Injected(item.body, planId)),
             if item.status == ItemPendingReview then ItemConfirmed else item.status)
  }

  ghost function ConfirmedItems(items: seq<PlanItem>, planId: Id): (r: seq<PlanItem>)
    ensures |r| == |items| && forall i :: 0 <= i < |r| ==> r[i] == ConfirmedItem(items[i], planId)
  {
    seq(|items|, i requires 0 <= i < |items| => ConfirmedItem(items[i], planId))
  }

  /** Confirming an item overwrites nothing the user set. */
  lemma InjectionKeepsMetadata(b: ItemBody, planId: Id, key: string)
    ensures key in b.metadata ==> key in Injected(b, planId) && Injected(b, planId)[key] == b.metadata[key]
    ensures key in Injected(b, planId) && key !in b.metadata ==>
      || (key == "agent_id" && Injected(b, planId)[key] == b.assignee != "")
      || (key == "workdir" && Injected(b, planId)[key] == b.workdir != "")
      || (key == "plan_id" && Injected(b, planId)[key] == planId)
  {
    assert "agent_id" != "workdir" by { assert |"agent_id"| != |"workdir"|; }
    assert "agent_id" != "plan_id" by { assert |"agent_id"| != |"plan_id"|; }
    assert "workdir" != "plan_id" by { assert "workdir"[0] != "plan_id"[0]; }
  }

  lemma ConfirmedItemsStayValid(items: seq<PlanItem>, planId: Id)
    requires Resolved(items) && Verified(items)
    ensures Resolved(ConfirmedItems(items, planId)) && Verified(ConfirmedItems(items, planId))
  {
    var r := ConfirmedItems(items, planId);
    forall item | item in r
      ensures exists k :: 0 <= k < |items| && r[k] == item && item == ConfirmedItem(items[k], planId)
    {
    }
    forall id | HasId(items, id) ensures HasId(r, id) {
      var item :| item in items && item.body.id == id;
      var k :| 0 <= k < |items| && items[k] == item;
      assert r[k] in r;
    }
    forall item, dep ensures !Dangling(r, item, dep) {
      if Dangling(r, item, dep) {
        var k :| 0 <= k < |items| && r[k] == item && item == ConfirmedItem(items[k], planId);
        assert !Dangling(items, items[k], dep);
      }
    }
  }

  // ---------- The store, and one step of any call ----------

  /** `inFlight`: confirmations between their two locked sections; `commits`: those that succeeded. */
  datatype Store = Store(plans: map<Id, Plan>, inFlight: map<nat, Id>, commits: seq<Id>)

  datatype Step =
    | Create(id: Id, bodies: seq<ItemBody>, metadata: Metadata, now: Time)
    | Update(id: Id, newBodies: Option<seq<ItemBody>>, newMetadata: Option<Metadata>, now: Time)
    | CheckConfirm(call: nat, id: Id)
    | CommitConfirm(call: nat, hookRaises: bool, now: Time)

  const EMPTY_STORE := Store(map[], map[], [])

  predicate IsConfirmed(s: Store, id: Id) {
    id in s.plans && s.plans[id].status == PlanConfirmed
  }

  ghost predicate Confirmable(s: Store, id: Id) {
    && id in s.plans && s.plans[id].status != PlanConfirmed
    && Resolved(s.plans[id].items) && Verified(s.plans[id].items)
  }

  ghost predicate Creatable(s: Store, id: Id, bodies: seq<ItemBody>) {
    id !in s.plans && id != "" && WellFormedBodies(bodies) && Resolved(Rebuilt([], bodies))
  }

  ghost predicate Updatable(s: Store, id: Id, bodies: Option<seq<ItemBody>>) {
    && id in s.plans && s.plans[id].status != PlanConfirmed
    && (bodies.Some? ==> WellFormedBodies(bodies.value) && Resolved(Rebuilt(s.plans[id].items, bodies.value)))
  }

  /** An update: malformed items change nothing, but items that do not validate stay. */
  ghost function Updated(p: Plan, bodies: Option<seq<ItemBody>>, metadata: Option<Metadata>, now: Time): Plan {
    if bodies.Some? && !WellFormedBodies(bodies.value) then p
    else
      var q := if bodies.Some? then p.(items := Rebuilt(p.items, bodies.value)) else p;
      if bodies.Some? && !Resolved(q.items) then q
      else q.(metadata := if metadata.Some? then metadata.value else q.metadata, updatedAt := now)
  }

  ghost function Committed(p: Plan, id: Id, now: Time): Plan {
    p.(items := ConfirmedItems(p.items, id), status := PlanConfirmed, updatedAt := now)
  }

  ghost function Apply(s: Store, step: Step): Store {
    match step
    case Create(id, bodies, metadata, now) =>
      if !Creatable(s, id, bodies) then s
      else s.(plans := s.plans[id := Plan(Rebuilt([], bodies), PlanDraft, metadata, now)])
    case Update(id, bodies, metadata, now) =>
      if id !in s.plans || IsConfirmed(s, id) then s
      else s.(plans := s.plans[id := Updated(s.plans[id], bodies, metadata, now)])
    case CheckConfirm(call, id) =>
      if call in s.inFlight || !Confirmable(s, id) then s else s.(inFlight := s.inFlight[call := id])
    case CommitConfirm(call, hookRaises, now) =>
      if call !in s.inFlight then s
      else
        var id := s.inFlight[call];
        var s' := s.(inFlight := s.inFlight - {call});
        if hookRaises || !Confirmable(s, id) then s'
        else s'.(plans := s.plans[id := Committed(s.plans[id], id, now)], commits := s.commits + [id])
  }

  // ---------- What every interleaving keeps ----------

  ghost predicate PlanSound(p: Plan) {
    && (p.status == PlanDraft || p.status == PlanConfirmed)
    && (forall item :: item in p.items ==>
          && WellFormedBody(item.body)
          && item.status == if p.status == PlanConfirmed then ItemConfirmed else ItemPendingReview)
    && (p.status == PlanConfirmed ==> Resolved(p.items) && Verified(p.items))
  }

  function Times(ids: seq<Id>, id: Id): nat {
    multiset(ids)[id]
  }

  ghost predicate Sound(s: Store) {
    && (forall id :: id in s.plans ==> PlanSound(s.plans[id]))
    && (forall call :: call in s.inFlight ==> s.inFlight[call] in s.plans)
    && (forall id :: Times(s.commits, id) == if IsConfirmed(s, id) then 1 else 0)
  }

  lemma {:induction false} PendingStaysPending(items: seq<PlanItem>, id: Id)
    requires forall item :: item in items ==> item.status == ItemPendingReview
    ensures StatusIn(items, id) == ItemPendingReview
  {
    if items != [] {
      assert items[|items| - 1] in items;
      PendingStaysPending(items[..|items| - 1], id);
    }
  }

  lemma RebuiltIsPending(items: seq<PlanItem>, bodies: seq<ItemBody>)
    requires WellFormedBodies(bodies)
    requires forall item :: item in items ==> item.status == ItemPendingReview
    ensures forall item :: item in Rebuilt(items, bodies) ==>
      WellFormedBody(item.body) && item.status == ItemPendingReview
  {
    forall item | item in Rebuilt(items, bodies) ensures WellFormedBody(item.body) && item.status == ItemPendingReview {
      var i :| 0 <= i < |bodies| && item == Rebuilt(items, bodies)[i];
      assert bodies[i] in bodies;
      PendingStaysPending(items, bodies[i].id);
    }
  }

  lemma UpdatedIsSound(p: Plan, bodies: Option<seq<ItemBody>>, metadata: Option<Metadata>, now: Time)
    requires PlanSound(p) && p.status != PlanConfirmed
    ensures PlanSound(Updated(p, bodies, metadata, now)) && Updated(p, bodies, metadata, now).status == PlanDraft
  {
    hide Resolved;
    if bodies.Some? && WellFormedBodies(bodies.value) {
      RebuiltIsPending(p.items, bodies.value);
    }
  }

  lemma CommittedIsSound(p: Plan, id: Id, now: Time)
    requires PlanSound(p) && p.status != PlanConfirmed && Resolved(p.items) && Verified(p.items)
    ensures PlanSound(Committed(p, id, now))
  {
    ConfirmedItemsStayValid(p.items, id);
    hide Resolved;
    var r := ConfirmedItems(p.items, id);
    forall item | item in r ensures WellFormedBody(item.body) && item.status == ItemConfirmed {
      var k :| 0 <= k < |r| && r[k] == item;
      assert p.items[k] in p.items;
    }
  }

  lemma ApplyKeepsSound(s: Store, step: Step)
    requires Sound(s)
    ensures Sound(Apply(s, step))
  {
    hide Sound, PlanSound, Updated, Committed, Resolved, Verified, Rebuilt;
    PlansOfSound(s);
    match step
    case Create(id, bodies, metadata, now) =>
      if Creatable(s, id, bodies) {
        CreatedIsSound(id, bodies, metadata, now);
        ReplacedKeepsSound(s, id, Plan(Rebuilt([], bodies), PlanDraft, metadata, now));
      }
    case Update(id, bodies, metadata, now) =>
      if id in s.plans && !IsConfirmed(s, id) {
        UpdatedIsSound(s.plans[id], bodies, metadata, now);
        ReplacedKeepsSound(s, id, Updated(s.plans[id], bodies, metadata, now));
      }
    case CheckConfirm(call, id) =>
      if call !in s.inFlight && Confirmable(s, id) {
        FlightKeepsSound(s, s.inFlight[call := id]);
      }
    case CommitConfirm(call, hookRaises, now) =>
      if call in s.inFlight {
        FlightKeepsSound(s, s.inFlight - {call});
        var id := s.inFlight[call];
        if !hookRaises && Confirmable(s, id) {
          CommittedIsSound(s.plans[id], id, now);
          CommittedStatus(s.plans[id], id, now);
          CommitKeepsSound(s.(inFlight := s.inFlight - {call}), id, Committed(s.plans[id], id, now));
        }
      }
  }

  lemma PlansOfSound(s: Store)
    requires Sound(s)
    ensures forall id :: id in s.plans ==> PlanSound(s.plans[id])
    ensures forall call :: call in s.inFlight ==> s.inFlight[call] in s.plans
  {
  }

  lemma ReplacedKeepsSound(s: Store, id: Id, q: Plan)
    requires Sound(s) && PlanSound(q) && q.status == PlanDraft && !IsConfirmed(s, id)
    ensures Sound(s.(plans := s.plans[id := q]))
  {
    hide PlanSound, Times;
  }

  lemma FlightKeepsSound(s: Store, inFlight: map<nat, Id>)
    requires Sound(s) && forall call :: call in inFlight ==> inFlight[call] in s.plans
    ensures Sound(s.(inFlight := inFlight))
  {
    hide PlanSound, Times;
  }

  lemma CommitKeepsSound(s: Store, id: Id, q: Plan)
    requires Sound(s) && PlanSound(q) && q.status == PlanConfirmed && id in s.plans && !IsConfirmed(s, id)
    ensures Sound(s.(plans := s.plans[id := q], commits := s.commits + [id]))
  {
    var r := s.(plans := s.plans[id := q], commits := s.commits + [id]);
    hide PlanSound;
    forall x ensures Times(r.commits, x) == if IsConfirmed(r, x) then 1 else 0 {
      assert Times(r.commits, x) == Times(s.commits, x) + if x == id then 1 else 0;
    }
  }

  lemma CreatedIsSound(id: Id, bodies: seq<ItemBody>, metadata: Metadata, now: Time)
    requires WellFormedBodies(bodies)
    ensures PlanSound(Plan(Rebuilt([], bodies), PlanDraft, metadata, now))
  {
    RebuiltIsPending([], bodies);
  }

  lemma CommittedStatus(p: Plan, id: Id, now: Time)
    ensures Committed(p, id, now).status == PlanConfirmed
  {
  }

  /** The store after any interleaving of the locked sections of any calls. */
  ghost function AfterSteps(steps: seq<Step>): (s: Store)
    ensures Sound(s)
  {
    if steps == [] then EMPTY_STORE
    else
      var before := AfterSteps(steps[..|steps| - 1]);
      ApplyKeepsSound(before, steps[|steps| - 1]);
      Apply(before, steps[|steps| - 1])
  }

  /** After every interleaving a confirmed plan has unique ids, resolved dependencies,
      verification everywhere and confirmed items only; an unconfirmed one has no confirmed
      item; and each plan has been committed exactly once if it is confirmed, else never. */
  lemma EveryInterleavingIsSound(steps: seq<Step>, id: Id)
    ensures var s := AfterSteps(steps);
      && Times(s.commits, id) == (if IsConfirmed(s, id) then 1 else 0)
      && (IsConfirmed(s, id) ==>
            && Resolved(s.plans[id].items) && Verified(s.plans[id].items)
            && forall item :: item in s.plans[id].items ==> item.status == ItemConfirmed)
      && (id in s.plans && !IsConfirmed(s, id) ==>
            forall item :: item in s.plans[id].items ==> item.status == ItemPendingReview)
  {
    var s := AfterSteps(steps);
    assert Sound(s);
  }

  lemma ConfirmedSurvivesStep(s: Store, step: Step, id: Id)
    requires IsConfirmed(s, id)
    ensures IsConfirmed(Apply(s, step), id) && Apply(s, step).plans[id] == s.plans[id]
  {
    hide Updated, Committed, Resolved;
  }

  lemma AfterOneMore(steps: seq<Step>, step: Step)
    ensures AfterSteps(steps + [step]) == Apply(AfterSteps(steps), step)
  {
    assert (steps + [step])[..|steps|] == steps;
    hide Apply;
  }

  /** Nothing that happens later changes a confirmed plan. */
  lemma {:induction false} ConfirmedIsFrozen(steps: seq<Step>, more: seq<Step>, id: Id)
    requires IsConfirmed(AfterSteps(steps), id)
    ensures IsConfirmed(AfterSteps(steps + more), id)
    ensures AfterSteps(steps + more).plans[id] == AfterSteps(steps).plans[id]
    decreases |more|
  {
    hide *;
    if more == [] {
      assert steps + more == steps;
    } else {
      var n := |more| - 1;
      ConfirmedIsFrozen(steps, more[..n], id);
      assert steps + more == steps + more[..n] + [more[n]];
      AfterOneMore(steps + more[..n], more[n]);
      ConfirmedSurvivesStep(AfterSteps(steps + more[..n]), more[n], id);
    }
  }

  /** A rejected update still replaces the items when they are well formed: it changes
      nothing exactly when the items are malformed, or are the ones the plan already had. */
  lemma RejectedUpdateChangesNothingIff(p: Plan, bodies: seq<ItemBody>, metadata: Option<Metadata>, now: Time)
    requires !WellFormedBodies(bodies) || !Resolved(Rebuilt(p.items, bodies))
    ensures Updated(p, Some(bodies), metadata, now) == p
      <==> !WellFormedBodies(bodies) || Rebuilt(p.items, bodies) == p.items
    ensures Updated(p, Some(bodies), metadata, now)
      == if WellFormedBodies(bodies) then p.(items := Rebuilt(p.items, bodies)) else p
  {
  }

  // ---------- A plan is what was asked for ----------

  /** Requested items with unique ids, each dependency the id of one of them. */
  ghost predicate ResolvedBodies(bodies: seq<ItemBody>) {
    && (forall i, j :: 0 <= i < j < |bodies| ==> bodies[i].id != bodies[j].id)
    && forall b, dep :: b in bodies && dep in b.dependencies ==> Requested(bodies, dep)
  }

  ghost predicate Requested(bodies: seq<ItemBody>, id: Id) {
    exists c :: c in bodies && c.id == id
  }

  ghost predicate VerifiedBodies(bodies: seq<ItemBody>) {
    forall b :: b in bodies ==> b.verification != ""
  }

  /** What the calls have asked of a plan so far, and when it was last changed. */
  datatype Request = Request(bodies: seq<ItemBody>, metadata: Metadata, updatedAt: Time)

  /** Read off the history: the items last created or replaced, and the metadata last set by a call
      that was accepted.  A rejected update still replaces well-formed items. */
  ghost function Planned(steps: seq<Step>, id: Id): Option<Request>
    decreases |steps|, 0
  {
    if steps == [] then None
    else
      var rest := steps[..|steps| - 1];
      var before := Planned(rest, id);
      match steps[|steps| - 1]
      case Create(x, bodies, metadata, now) =>
        if x == id && before.None? && id != "" && WellFormedBodies(bodies) && ResolvedBodies(bodies)
        then Some(Request(bodies, metadata, now)) else before
      case Update(x, bodies, metadata, now) =>
        if x != id || before.None? || ConfirmedBy(rest, id) then before
        else Some(Asked(before.value, bodies, metadata, now))
      case CheckConfirm(_, _) => before
      case CommitConfirm(call, hookRaises, now) =>
        if ConfirmsNow(rest, call, id, hookRaises) && before.Some? then Some(before.value.(updatedAt := now))
        else before
  }

  ghost function Asked(r: Request, bodies: Option<seq<ItemBody>>, metadata: Option<Metadata>, now: Time): Request {
    var m := if metadata.Some? then metadata.value else r.metadata;
    match bodies
    case None => Request(r.bodies, m, now)
    case Some(b) =>
      if !WellFormedBodies(b) then r else if !ResolvedBodies(b) then r.(bodies := b) else Request(b, m, now)
  }

  ghost predicate ConfirmedBy(steps: seq<Step>, id: Id)
    decreases |steps|, 0
  {
    steps != [] &&
    var rest, last := steps[..|steps| - 1], steps[|steps| - 1];
    ConfirmedBy(rest, id) || (last.CommitConfirm? && ConfirmsNow(rest, last.call, id, last.hookRaises))
  }

  /** The plan exists, is not confirmed yet, and what was asked for is resolved and verified. */
  ghost predicate MayConfirm(steps: seq<Step>, id: Id)
    decreases |steps|, 1
  {
    && Planned(steps, id).Some? && !ConfirmedBy(steps, id)
    && ResolvedBodies(Planned(steps, id).value.bodies) && VerifiedBodies(Planned(steps, id).value.bodies)
  }

  ghost predicate ConfirmsNow(steps: seq<Step>, call: nat, id: Id, hookRaises: bool)
    decreases |steps|, 2
  {
    !hookRaises && InFlightAfter(steps, call) == Some(id) && MayConfirm(steps, id)
  }

  /** The plan that a call has passed its check for and not yet tried to commit. */
  ghost function InFlightAfter(steps: seq<Step>, call: nat): Option<Id>
    decreases |steps|, 0
  {
    if steps == [] then None
    else
      var rest := steps[..|steps| - 1];
      var before := InFlightAfter(rest, call);
      match steps[|steps| - 1]
      case CheckConfirm(c, id) => if c == call && before.None? && MayConfirm(rest, id) then Some(id) else before
      case CommitConfirm(c, _, _) => if c == call then None else before
      case _ => before
  }

  /** What confirming adds to the metadata of an item: its plan, and its assignee and working
      directory if it has them; what the user set is kept. */
  ghost predicate Annotated(b: ItemBody, m: Metadata, planId: Id) {
    && m.Keys == b.metadata.Keys + {"plan_id"} + (if b.assignee != "" then {"agent_id"} else {})
                 + (if b.workdir != "" then {"workdir"} else {})
    && (forall key :: key in b.metadata ==> m[key] == b.metadata[key])
    && ("plan_id" !in b.metadata ==> m["plan_id"] == planId)
    && (b.assignee != "" && "agent_id" !in b.metadata ==> m["agent_id"] == b.assignee)
    && (b.workdir != "" && "workdir" !in b.metadata ==> m["workdir"] == b.workdir)
  }

  ghost predicate ItemIs(item: PlanItem, b: ItemBody, confirmed: bool, planId: Id) {
    && item.body.id == b.id && item.body.title == b.title && item.body.priority == b.priority
    && item.body.dependencies == b.dependencies && item.body.assignee == b.assignee
    && item.body.workdir == b.workdir && item.body.verification == b.verification
    && item.status == (if confirmed then ItemConfirmed else ItemPendingReview)
    && if confirmed then Annotated(b, item.body.metadata, planId) else item.body.metadata == b.metadata
  }

  ghost predicate PlanIs(p: Plan, r: Request, confirmed: bool, id: Id) {
    && p.metadata == r.metadata && p.updatedAt == r.updatedAt
    && p.status == (if confirmed then PlanConfirmed else PlanDraft)
    && |p.items| == |r.bodies| && forall i :: 0 <= i < |r.bodies| ==> ItemIs(p.items[i], r.bodies[i], confirmed, id)
  }

  /** The store holds the plan as asked for, or none if it was never created. */
  ghost predicate Holds(s: Store, r: Option<Request>, confirmed: bool, id: Id) {
    && (id in s.plans <==> r.Some?) && (r.None? ==> !confirmed)
    && (r.Some? ==> PlanIs(s.plans[id], r.value, confirmed, id))
  }

  lemma ConfirmingAnnotates(item: PlanItem, b: ItemBody, planId: Id)
    requires ItemIs(item, b, false, planId)
    ensures ItemIs(ConfirmedItem(item, planId), b, true, planId)
  {
    assert item.body == b;
    assert "agent_id" != "workdir" by { assert |"agent_id"| != |"workdir"|; }
    assert "agent_id" != "plan_id" by { assert |"agent_id"| != |"plan_id"|; }
    assert "workdir" != "plan_id" by { assert "workdir"[0] != "plan_id"[0]; }
  }

  lemma ItemsResolvedIff(items: seq<PlanItem>, bodies: seq<ItemBody>)
    requires |items| == |bodies|
    requires forall i :: 0 <= i < |bodies| ==>
      && items[i].body.id == bodies[i].id && items[i].body.dependencies == bodies[i].dependencies
      && items[i].body.verification == bodies[i].verification
    ensures Resolved(items) <==> ResolvedBodies(bodies)
    ensures Verified(items) <==> VerifiedBodies(bodies)
  {
    forall id ensures HasId(items, id) <==> Requested(bodies, id) {
      SameIds(items, bodies, id);
    }
    hide HasId, Requested;
    if Resolved(items) {
      forall b, dep | b in bodies && dep in b.dependencies ensures Requested(bodies, dep) {
        var i :| 0 <= i < |bodies| && bodies[i] == b;
        assert !Dangling(items, items[i], dep) && items[i] in items;
      }
    }
    if ResolvedBodies(bodies) {
      forall item, dep ensures !Dangling(items, item, dep) {
        if Dangling(items, item, dep) {
          var i :| 0 <= i < |items| && items[i] == item;
          assert bodies[i] in bodies;
        }
      }
    }
    SameVerified(items, bodies);
  }

  lemma SameIds(items: seq<PlanItem>, bodies: seq<ItemBody>, id: Id)
    requires |items| == |bodies| && forall i :: 0 <= i < |bodies| ==> items[i].body.id == bodies[i].id
    ensures HasId(items, id) <==> Requested(bodies, id)
  {
    if HasId(items, id) {
      var item :| item in items && item.body.id == id;
      var i :| 0 <= i < |items| && items[i] == item;
      assert bodies[i] in bodies;
    }
    if Requested(bodies, id) {
      var b :| b in bodies && b.id == id;
      var i :| 0 <= i < |bodies| && bodies[i] == b;
      assert items[i] in items;
    }
  }

  lemma SameVerified(items: seq<PlanItem>, bodies: seq<ItemBody>)
    requires |items| == |bodies|
    requires forall i :: 0 <= i < |bodies| ==> items[i].body.verification == bodies[i].verification
    ensures Verified(items) <==> VerifiedBodies(bodies)
  {
    forall i | 0 <= i < |bodies| ensures items[i] in items && bodies[i] in bodies {
    }
    if Verified(items) {
      forall b | b in bodies ensures b.verification != "" {
        var i :| 0 <= i < |bodies| && bodies[i] == b;
      }
    }
    if VerifiedBodies(bodies) {
      forall item | item in items ensures item.body.verification != "" {
        var i :| 0 <= i < |items| && items[i] == item;
      }
    }
  }

  lemma RebuiltIs(p: Plan, bodies: seq<ItemBody>, r: Request, id: Id)
    requires PlanIs(p, r, false, id) || p.items == []
    ensures |Rebuilt(p.items, bodies)| == |bodies|
    ensures forall i :: 0 <= i < |bodies| ==> ItemIs(Rebuilt(p.items, bodies)[i], bodies[i], false, id)
    ensures Resolved(Rebuilt(p.items, bodies)) <==> ResolvedBodies(bodies)
  {
    forall item | item in p.items ensures item.status == ItemPendingReview {
      var i :| 0 <= i < |p.items| && p.items[i] == item;
      assert ItemIs(p.items[i], r.bodies[i], false, id);
    }
    forall i | 0 <= i < |bodies| ensures ItemIs(Rebuilt(p.items, bodies)[i], bodies[i], false, id) {
      PendingStaysPending(p.items, bodies[i].id);
    }
    hide Resolved, ResolvedBodies, PlanIs, StatusIn;
    ItemsResolvedIff(Rebuilt(p.items, bodies), bodies);
  }

  lemma UpdatedIs(p: Plan, r: Request, id: Id, bodies: Option<seq<ItemBody>>, metadata: Option<Metadata>, now: Time)
    requires PlanIs(p, r, false, id)
    ensures PlanIs(Updated(p, bodies, metadata, now), Asked(r, bodies, metadata, now), false, id)
  {
    if bodies.Some? {
      RebuiltIs(p, bodies.value, r, id);
    }
    hide Resolved, ResolvedBodies, ItemIs, WellFormedBodies, Rebuilt;
  }

  lemma CommittedIs(p: Plan, r: Request, id: Id, now: Time)
    requires PlanIs(p, r, false, id)
    ensures PlanIs(Committed(p, id, now), r.(updatedAt := now), true, id)
  {
    forall i | 0 <= i < |r.bodies| ensures ItemIs(ConfirmedItem(p.items[i], id), r.bodies[i], true, id) {
      ConfirmingAnnotates(p.items[i], r.bodies[i], id);
    }
    hide ItemIs, ConfirmedItem;
  }

  lemma CreatedIs(id: Id, bodies: seq<ItemBody>, metadata: Metadata, now: Time)
    ensures PlanIs(Plan(Rebuilt([], bodies), PlanDraft, metadata, now), Request(bodies, metadata, now), false, id)
    ensures Resolved(Rebuilt([], bodies)) <==> ResolvedBodies(bodies)
  {
    RebuiltIs(Plan([], PlanDraft, metadata, now), bodies, Request([], metadata, now), id);
    hide Resolved, ResolvedBodies, ItemIs, Rebuilt;
  }

  lemma ConfirmableIff(s: Store, r: Option<Request>, confirmed: bool, id: Id)
    requires Holds(s, r, confirmed, id)
    ensures Confirmable(s, id) <==>
      r.Some? && !confirmed && ResolvedBodies(r.value.bodies) && VerifiedBodies(r.value.bodies)
  {
    if r.Some? {
      assert forall i :: 0 <= i < |r.value.bodies| ==> ItemIs(s.plans[id].items[i], r.value.bodies[i], confirmed, id);
      ItemsResolvedIff(s.plans[id].items, r.value.bodies);
    }
    hide Resolved, Verified, ResolvedBodies, VerifiedBodies, ItemIs;
  }

  /** One step, as the history tells it of one plan. */
  lemma StepHolds(steps: seq<Step>, step: Step, s: Store, id: Id)
    requires Holds(s, Planned(steps, id), ConfirmedBy(steps, id), id)
    requires step.CommitConfirm? ==> Lookup(s.inFlight, step.call) == InFlightAfter(steps, step.call)
    ensures Holds(Apply(s, step), Planned(steps + [step], id), ConfirmedBy(steps + [step], id), id)
  {
    var r, confirmed := Planned(steps, id), ConfirmedBy(steps, id);
    assert (steps + [step])[..|steps|] == steps;
    match step
    case Create(x, bodies, metadata, now) =>
      CreatedIs(x, bodies, metadata, now);
      hide Resolved, ResolvedBodies, PlanIs, Rebuilt, WellFormedBodies;
    case Update(x, bodies, metadata, now) =>
      if x == id && r.Some? && !confirmed {
        UpdatedIs(s.plans[id], r.value, id, bodies, metadata, now);
      }
      assert x == id && r.Some? ==> (IsConfirmed(s, id) <==> confirmed);
      hide PlanIs, Updated, Asked;
    case CheckConfirm(call, x) =>
      hide Confirmable, PlanIs;
    case CommitConfirm(call, hookRaises, now) =>
      ConfirmableIff(s, r, confirmed, id);
      assert Confirmable(s, id) <==> MayConfirm(steps, id);
      assert ConfirmsNow(steps, call, id, hookRaises) <==>
        !hookRaises && Lookup(s.inFlight, call) == Some(id) && Confirmable(s, id);
      assert ConfirmedBy(steps + [step], id) <==> confirmed || ConfirmsNow(steps, call, id, hookRaises);
      if r.Some? && !confirmed {
        CommittedIs(s.plans[id], r.value, id, now);
      }
      hide Confirmable, PlanIs, Committed, ResolvedBodies, VerifiedBodies;
  }

  function Lookup(m: map<nat, Id>, call: nat): Option<Id> {
    if call in m then Some(m[call]) else None
  }

  lemma StepKeepsFlights(steps: seq<Step>, step: Step, s: Store, call: nat)
    requires Lookup(s.inFlight, call) == InFlightAfter(steps, call)
    requires step.CheckConfirm? ==> Holds(s, Planned(steps, step.id), ConfirmedBy(steps, step.id), step.id)
    ensures Lookup(Apply(s, step).inFlight, call) == InFlightAfter(steps + [step], call)
  {
    assert (steps + [step])[..|steps|] == steps;
    if step.CheckConfirm? {
      ConfirmableIff(s, Planned(steps, step.id), ConfirmedBy(steps, step.id), step.id);
    }
    hide Confirmable, Holds, Committed, Updated, ResolvedBodies, VerifiedBodies;
  }

  /** After every interleaving each plan is, item by item, what its own calls have last asked for,
      confirmed exactly if one of them passed both checks, and confirming has changed nothing but
      statuses and what it adds to the metadata of the items; so no plan depends on the calls for
      any other. */
  lemma {:induction false} PlansAreAsRequested(steps: seq<Step>, id: Id, call: nat)
    ensures Holds(AfterSteps(steps), Planned(steps, id), ConfirmedBy(steps, id), id)
    ensures Lookup(AfterSteps(steps).inFlight, call) == InFlightAfter(steps, call)
    decreases |steps|
  {
    hide *;
    if steps == [] {
      NothingPlanned(id, call);
    } else {
      var n := |steps| - 1;
      var rest, last := steps[..n], steps[n];
      assert steps == rest + [last];
      PlansAreAsRequested(rest, id, call);
      if last.CommitConfirm? {
        PlansAreAsRequested(rest, id, last.call);
      }
      if last.CheckConfirm? {
        PlansAreAsRequested(rest, last.id, call);
      }
      AfterOneMore(rest, last);
      StepHolds(rest, last, AfterSteps(rest), id);
      StepKeepsFlights(rest, last, AfterSteps(rest), call);
    }
  }

  /** An update is accepted exactly if the plan exists, is not confirmed, and the new items, if any,
      are well formed and resolved. */
  lemma UpdateAcceptedIff(steps: seq<Step>, id: Id, bodies: Option<seq<ItemBody>>)
    ensures Updatable(AfterSteps(steps), id, bodies) <==>
      && Planned(steps, id).Some? && !ConfirmedBy(steps, id)
      && (bodies.Some? ==> WellFormedBodies(bodies.value) && ResolvedBodies(bodies.value))
  {
    var s := AfterSteps(steps);
    PlansAreAsRequested(steps, id, 0);
    hide AfterSteps, Resolved, ResolvedBodies, ItemIs, WellFormedBodies, Rebuilt;
    if id in s.plans && bodies.Some? && !ConfirmedBy(steps, id) {
      RebuiltIs(s.plans[id], bodies.value, Planned(steps, id).value, id);
    }
  }

  lemma NothingPlanned(id: Id, call: nat)
    ensures Holds(AfterSteps([]), Planned([], id), ConfirmedBy([], id), id)
    ensures Lookup(AfterSteps([]).inFlight, call) == InFlightAfter([], call)
  {
  }

  // ---------- Why the plan is validated twice ----------

  const SAMPLE := ItemBody("a", "A", 0, [], "", "", "checked", map[])
  const BROKEN := ItemBody("a", "A", 0, ["b"], "", "", "checked", map[])

  lemma SampleIsValid()
    ensures WellFormedBodies([SAMPLE]) && Resolved(Rebuilt([], [SAMPLE])) && Verified(Rebuilt([], [SAMPLE]))
    ensures WellFormedBodies([BROKEN])
    ensures forall items :: !Resolved(Rebuilt(items, [BROKEN]))
  {
    var r := Rebuilt([], [SAMPLE]);
    assert forall item :: item in r ==> item == r[0];
    forall items ensures !Resolved(Rebuilt(items, [BROKEN])) {
      var q := Rebuilt(items, [BROKEN]);
      assert forall item :: item in q ==> item == q[0];
      assert q[0].body.id == "a" && "b" != "a";
      assert Dangling(q, q[0], "b") by {
        assert "b" in q[0].body.dependencies;
        assert !HasId(q, "b");
      }
    }
  }

  /** A confirmation passes its check, an update is rejected but leaves its items behind, and
      the commit must be refused: the first validation alone would confirm an invalid plan.
      `SampleIsValid` has such items. */
  lemma FirstValidationIsNotEnough(id: Id, good: seq<ItemBody>, bad: seq<ItemBody>, now: Time)
    requires id != "" && WellFormedBodies(good) && Resolved(Rebuilt([], good)) && Verified(Rebuilt([], good))
    requires WellFormedBodies(bad) && forall items :: !Resolved(Rebuilt(items, bad))
    ensures var before := [Create(id, good, map[], now)] + [CheckConfirm(0, id)];
      var steps := before + [Update(id, Some(bad), None, now)];
      && 0 in AfterSteps(before).inFlight && Confirmable(AfterSteps(before), id)
      && id in AfterSteps(steps).plans && !Resolved(AfterSteps(steps).plans[id].items)
      && !IsConfirmed(AfterSteps(steps + [CommitConfirm(0, false, now)]), id)
  {
    var before, update := [Create(id, good, map[], now)] + [CheckConfirm(0, id)], Update(id, Some(bad), None, now);
    CheckedPlan(id, good, now);
    AfterOneMore(before, update);
    AfterOneMore(before + [update], CommitConfirm(0, false, now));
    hide AfterSteps, Resolved, Verified, WellFormedBodies, Rebuilt, Apply, Confirmable, IsConfirmed;
    SpoiltPlanIsRefused(AfterSteps(before), id, good, bad, now);
  }

  /** The rejected update spoils the plan, and the commit refuses it. */
  lemma SpoiltPlanIsRefused(s: Store, id: Id, good: seq<ItemBody>, bad: seq<ItemBody>, now: Time)
    requires Resolved(Rebuilt([], good)) && Verified(Rebuilt([], good))
    requires s == Store(map[id := Plan(Rebuilt([], good), PlanDraft, map[], now)], map[0 := id], [])
    requires WellFormedBodies(bad) && forall items :: !Resolved(Rebuilt(items, bad))
    ensures 0 in s.inFlight && Confirmable(s, id)
    ensures var spoilt := Apply(s, Update(id, Some(bad), None, now));
      && id in spoilt.plans && !Resolved(spoilt.plans[id].items)
      && !IsConfirmed(Apply(spoilt, CommitConfirm(0, false, now)), id)
  {
    var plan := s.plans[id];
    RejectedUpdateChangesNothingIff(plan, bad, None, now);
    hide Resolved, Verified, WellFormedBodies, Rebuilt, Updated, Committed;
    var spoilt := Apply(s, Update(id, Some(bad), None, now));
    assert spoilt.plans == map[id := plan.(items := Rebuilt(plan.items, bad))];
  }

  /** The store with one draft plan. */
  function Drafted(id: Id, items: seq<PlanItem>, now: Time): Store {
    Store(map[id := Plan(items, PlanDraft, map[], now)], map[], [])
  }

  lemma StoreAfterCreate(id: Id, good: seq<ItemBody>, now: Time)
    requires id != "" && WellFormedBodies(good) && Resolved(Rebuilt([], good))
    ensures Apply(EMPTY_STORE, Create(id, good, map[], now)) == Drafted(id, Rebuilt([], good), now)
  {
    hide Resolved, WellFormedBodies, Rebuilt;
  }

  lemma StoreAfterCheck(id: Id, items: seq<PlanItem>, now: Time)
    requires Resolved(items) && Verified(items)
    ensures Apply(Drafted(id, items, now), CheckConfirm(0, id)) == Drafted(id, items, now).(inFlight := map[0 := id])
  {
    hide Resolved, Verified;
  }

  /** A plan that is created and whose confirmation has passed its check. */
  lemma CheckedPlan(id: Id, good: seq<ItemBody>, now: Time)
    requires id != "" && WellFormedBodies(good) && Resolved(Rebuilt([], good)) && Verified(Rebuilt([], good))
    ensures AfterSteps([Create(id, good, map[], now)] + [CheckConfirm(0, id)])
      == Drafted(id, Rebuilt([], good), now).(inFlight := map[0 := id])
  {
    var create := Create(id, good, map[], now);
    assert AfterSteps([]) == EMPTY_STORE;
    hide *;
    assert [] + [create] == [create];
    AfterOneMore([], create);
    AfterOneMore([create], CheckConfirm(0, id));
    StoreAfterCreate(id, good, now);
    StoreAfterCheck(id, Rebuilt([], good), now);
  }

  // ---------- The endpoints ----------

  class TaskPlanService {
    var plans: map<Id, Plan>
    ghost var inFlight: map<nat, Id>
    ghost var commits: seq<Id>

    ghost function View(): Store
      reads this
    {
      Store(plans, inFlight, commits)
    }

    constructor ()
      ensures View() == EMPTY_STORE
    {
      plans, inFlight, commits := map[], map[], [];
    }

    method CreateTaskPlan(id: Id, bodies: seq<ItemBody>, metadata: Metadata, now: Time)
      returns (r: Result<(), PlanError>)
      modifies this
      ensures View() == Apply(old(View()), Create(id, bodies, metadata, now))
      ensures r.Ok? <==> Creatable(old(View()), id, bodies)
      ensures r == Err(PlanExists) <==> id in old(plans)
    {
      hide Resolved;
      if id in plans {
        return Err(PlanExists);
      }
      var items := BuildItems([], bodies);
      if items.None? || id == "" {
        return Err(Malformed);
      }
      var valid := ValidateDependencies(items.value);
      if valid.Err? {
        return valid;
      }
      plans := plans[id := Plan(items.value, PlanDraft, metadata, now)];
      return Ok(());
    }

    /** The items of an update, stored before they are validated. */
    method ReplaceItems(id: Id, bodies: seq<ItemBody>) returns (r: Result<(), PlanError>)
      requires id in plans
      modifies `plans
      ensures r.Ok? <==> WellFormedBodies(bodies) && Resolved(Rebuilt(old(plans[id].items), bodies))
      ensures r.Err? ==> r.error == Malformed || IsInvalid(r.error)
      ensures plans == if !WellFormedBodies(bodies) then old(plans)
        else old(plans)[id := old(plans[id]).(items := Rebuilt(old(plans[id].items), bodies))]
    {
      hide Resolved;
      var items := BuildItems(plans[id].items, bodies);
      if items.None? {
        return Err(Malformed);
      }
      plans := plans[id := plans[id].(items := items.value)];
      r := ValidateDependencies(items.value);
    }

    method UpdateTaskPlan(id: Id, bodies: Option<seq<ItemBody>>, metadata: Option<Metadata>, now: Time)
      returns (r: Result<(), PlanError>)
      modifies this
      ensures View() == Apply(old(View()), Update(id, bodies, metadata, now))
      ensures r == Err(PlanNotFound) <==> id !in old(plans)
      ensures r == Err(AlreadyConfirmed) <==> old(IsConfirmed(View(), id))
      ensures r.Ok? <==> Updatable(old(View()), id, bodies)
    {
      hide Resolved;
      if id !in plans {
        return Err(PlanNotFound);
      }
      if plans[id].status == PlanConfirmed {
        return Err(AlreadyConfirmed);
      }
      assert old(plans)[id := old(plans)[id]] == old(plans);
      if bodies.Some? {
        r := ReplaceItems(id, bodies.value);
        if r.Err? {
          return;
        }
      }
      if metadata.Some? {
        plans := plans[id := plans[id].(metadata := metadata.value)];
      }
      plans := plans[id := plans[id].(updatedAt := now)];
      return Ok(());
    }

    /** Both validations of one section. */
    method Validate(id: Id) returns (r: Result<(), PlanError>)
      requires id in plans && plans[id].status != PlanConfirmed
      ensures r.Ok? <==> Confirmable(View(), id)
      ensures r.Err? ==> IsInvalid(r.error)
    {
      hide Resolved, Verified;
      r := ValidateDependencies(plans[id].items);
      if r.Ok? {
        r := ValidateVerification(plans[id].items);
      }
    }

    /** The first locked section of `confirm_task_plan`. */
    method CheckConfirmation(ghost call: nat, id: Id) returns (r: Result<(), PlanError>)
      requires call !in inFlight
      modifies `inFlight
      ensures View() == Apply(old(View()), CheckConfirm(call, id))
      ensures r.Ok? <==> Confirmable(old(View()), id)
      ensures r == Err(PlanNotFound) <==> id !in plans
      ensures r == Err(AlreadyConfirmed) <==> IsConfirmed(View(), id)
    {
      hide Resolved, Verified;
      if id !in plans {
        return Err(PlanNotFound);
      }
      if plans[id].status == PlanConfirmed {
        return Err(AlreadyConfirmed);
      }
      r := Validate(id);
      if r.Err? {
        return;
      }
      inFlight := inFlight[call := id];
      return Ok(());
    }

    /** The loop over the items of a commit. */
    method ConfirmItems(items: seq<PlanItem>, planId: Id) returns (r: seq<PlanItem>)
      ensures r == ConfirmedItems(items, planId)
    {
      r := [];
      for k := 0 to |items|
        invariant |r| == k && forall i :: 0 <= i < k ==> r[i] == ConfirmedItem(items[i], planId)
      {
        var item := items[k];
        if item.status == ItemPendingReview {
          item := item.(status := ItemConfirmed);
        }
        var metadata := item.body.metadata;
        if item.body.assignee != "" && "agent_id" !in metadata {
          metadata := metadata["agent_id" := item.body.assignee];
        }
        if item.body.workdir != "" && "workdir" !in metadata {
          metadata := metadata["workdir" := item.body.workdir];
        }
        if "plan_id" !in metadata {
          metadata := metadata["plan_id" := planId];
        }
        r := r + [item.(body := item.body.(metadata := metadata))];
      }
    }

    /** From the hook to the end of the second locked section. */
    method CommitConfirmation(ghost call: nat, id: Id, hookRaises: bool, now: Time) returns (r: Result<(), PlanError>)
      requires call in inFlight && inFlight[call] == id
      modifies this
      ensures View() == Apply(old(View()), CommitConfirm(call, hookRaises, now))
      ensures r.Ok? <==> !hookRaises && Confirmable(old(View()), id)
      ensures r == Err(AlreadyConfirmed) <==> !hookRaises && old(IsConfirmed(View(), id))
    {
      hide Resolved, Verified, ConfirmedItems;
      inFlight := inFlight - {call};
      if hookRaises {
        return Err(HookFailed);
      }
      if id !in plans {
        return Err(PlanNotFound);
      }
      if plans[id].status == PlanConfirmed {
        return Err(AlreadyConfirmed);
      }
      r := Validate(id);
      if r.Err? {
        return;
      }
      var items := ConfirmItems(plans[id].items, id);
      plans := plans[id := plans[id].(items := items, status := PlanConfirmed, updatedAt := now)];
      commits := commits + [id];
      return Ok(());
    }
  }
}
