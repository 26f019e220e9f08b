/**
  Tearing down broken portals: what is queued for one part under its strategy,
  the fixed order in which the four parts of a portal are torn down, the sweep
  over parts whose `PortalParts` record is gone, and the entity command that
  tears down the portal an entity belongs to.

  The pure functions here say which actions end up in the command buffer; the
  methods append them to a `Commands` log and are proved to append exactly
  those actions.
*/
module Despawn {
  import opened Wrappers
  import opened Api
  import opened Ecs

  // ---------------------------------------------------------------- one part

  /**
    The actions `despawn_portal_part` queues for entity `e` with strategy `s`,
    where `live` is the set of entities the command buffer can still address.
  */
  function PartActions(live: set<Entity>, e: Entity, s: PartStrategy): (r: seq<Action>)
    ensures |r| <= 3
    ensures Abort in r <==> s == Panic
    ensures Abort in r ==> r == [Abort]
    ensures Despawn(e) in r <==> s.ShouldDespawn() && e in live
    ensures forall i :: 0 <= i < |r| && (r[i].Despawn? || r[i].DespawnChildren?) ==> r[i].entity == e
  {
    if s.ShouldDespawn() then
      if e in live then
        (if s.ShouldWarn() then [Warn] else [])
        + (if s.ShouldDespawnChildren() then [DespawnChildren(e)] else [])
        + [Despawn(e)]
      else
        []
    else if s.ShouldPanic() then
      [Abort]
    else
      []
  }

  /** The six strategies, one by one, as a table. */
  lemma PartActionsTable(live: set<Entity>, e: Entity)
    ensures PartActions(live, e, Leave) == []
    ensures PartActions(live, e, Panic) == [Abort]
    ensures e in live ==> PartActions(live, e, WarnThenDespawnWithChildren) == [Warn, DespawnChildren(e), Despawn(e)]
    ensures e in live ==> PartActions(live, e, DespawnWithChildren) == [DespawnChildren(e), Despawn(e)]
    ensures e in live ==> PartActions(live, e, WarnThenDespawnEntity) == [Warn, Despawn(e)]
    ensures e in live ==> PartActions(live, e, DespawnEntity) == [Despawn(e)]
    ensures e !in live ==> forall s: PartStrategy :: s != Panic ==> PartActions(live, e, s) == []
  {
  }

  /** The part's actions are a warning iff it warns, then children iff it despawns them, then the despawn. */
  lemma PartActionsShape(live: set<Entity>, e: Entity, s: PartStrategy)
    requires s.ShouldDespawn() && e in live
    ensures Warn in PartActions(live, e, s) <==> s.ShouldWarn()
    ensures DespawnChildren(e) in PartActions(live, e, s) <==> s.ShouldDespawnChildren()
    ensures PartActions(live, e, s)[|PartActions(live, e, s)| - 1] == Despawn(e)
    ensures s.ShouldWarn() ==> PartActions(live, e, s)[0] == Warn
  {
  }

  /** `despawn_portal_part`. */
  method DespawnPortalPart(cmds: Commands, w: World, e: Entity, s: PartStrategy)
    modifies cmds`log
    ensures cmds.log == old(cmds.log) + PartActions(w.live, e, s)
  {
    if s.ShouldDespawn() {
      if e in w.live {
        if s.ShouldWarn() {
          cmds.Push(Warn);
        }
        if s.ShouldDespawnChildren() {
          cmds.Push(DespawnChildren(e));
        }
        cmds.Push(Despawn(e));
      }
    } else if s.ShouldPanic() {
      cmds.Push(Abort);
    }
  }

  // ---------------------------------------------------------------- four parts

  /** Sequencing under panics: once `a` has panicked, `b` never runs. */
  function Then(a: seq<Action>, b: seq<Action>): seq<Action> {
    if Abort in a then a else a + b
  }

  /**
    `despawn_portal_parts`: portal camera, destination, portal, main camera, each
    with its own strategy, stopping at the first panic.
  */
  function TeardownActions(live: set<Entity>, parts: PortalParts, st: PartsStrategy): seq<Action> {
    Then(Then(Then(PartActions(live, parts.portalCamera, st.portalCamera),
                   PartActions(live, parts.destination, st.destination)),
              PartActions(live, parts.portal, st.portal)),
         PartActions(live, parts.mainCamera, st.mainCamera))
  }

  /**
    When none of the first three parts panics, the teardown is the four parts'
    actions in the fixed order.
  */
  lemma TeardownOrder(live: set<Entity>, parts: PortalParts, st: PartsStrategy)
    requires st.portalCamera != Panic && st.destination != Panic && st.portal != Panic
    ensures TeardownActions(live, parts, st)
         == PartActions(live, parts.portalCamera, st.portalCamera)
          + PartActions(live, parts.destination, st.destination)
          + PartActions(live, parts.portal, st.portal)
          + PartActions(live, parts.mainCamera, st.mainCamera)
  {
  }

  /** The teardown panics iff one of the four strategies is Panic, and it stops right there. */
  lemma TeardownPanics(live: set<Entity>, parts: PortalParts, st: PartsStrategy)
    ensures Abort in TeardownActions(live, parts, st) <==>
      Panic in {st.portalCamera, st.destination, st.portal, st.mainCamera}
    ensures st.portalCamera == Panic ==> TeardownActions(live, parts, st) == [Abort]
    ensures st.portalCamera != Panic && st.destination == Panic ==>
      TeardownActions(live, parts, st) == PartActions(live, parts.portalCamera, st.portalCamera) + [Abort]
    ensures st.portalCamera != Panic && st.destination != Panic && st.portal == Panic ==>
      TeardownActions(live, parts, st)
        == PartActions(live, parts.portalCamera, st.portalCamera)
         + PartActions(live, parts.destination, st.destination) + [Abort]
  {
  }

  /** The default strategy on a live portal warns and despawns camera, destination and portal, and leaves the main camera. */
  lemma TeardownDespawnAndWarn(live: set<Entity>, parts: PortalParts)
    requires parts.portalCamera in live && parts.destination in live && parts.portal in live
    ensures TeardownActions(live, parts, DespawnAndWarn)
         == [Warn, Despawn(parts.portalCamera), Warn, Despawn(parts.destination),
             Warn, Despawn(parts.portal)]
  {
    TeardownOrder(live, parts, DespawnAndWarn);
  }

  /** No preset ever despawns a main camera that is not also one of the other parts. */
  lemma PresetsSpareMainCamera(live: set<Entity>, parts: PortalParts, i: nat)
    requires i < |Presets|
    requires parts.mainCamera !in {parts.portal, parts.destination, parts.portalCamera}
    ensures Despawn(parts.mainCamera) !in TeardownActions(live, parts, Presets[i])
    ensures DespawnChildren(parts.mainCamera) !in TeardownActions(live, parts, Presets[i])
  {
    var st := Presets[i];
    var m := parts.mainCamera;
    var a := PartActions(live, parts.portalCamera, st.portalCamera);
    var b := PartActions(live, parts.destination, st.destination);
    var c := PartActions(live, parts.portal, st.portal);
    assert PartActions(live, m, st.mainCamera) == [];
    assert Despawn(m) !in a && Despawn(m) !in b && Despawn(m) !in c;
    assert DespawnChildren(m) !in a;
    assert DespawnChildren(m) !in b;
    assert DespawnChildren(m) !in c;
  }

  /** `despawn_portal_parts` (and `despawn_portal_parts_with_message`, whose message is not modelled). */
  method DespawnPortalParts(cmds: Commands, w: World, parts: PortalParts, st: PartsStrategy)
    requires Abort !in cmds.log
    modifies cmds`log
    ensures cmds.log == old(cmds.log) + TeardownActions(w.live, parts, st)
  {
    ghost var log0 := cmds.log;
    ghost var a := PartActions(w.live, parts.portalCamera, st.portalCamera);
    ghost var b := PartActions(w.live, parts.destination, st.destination);
    ghost var c := PartActions(w.live, parts.portal, st.portal);
    ghost var d := PartActions(w.live, parts.mainCamera, st.mainCamera);
    TeardownPanics(w.live, parts, st);
    // A Panic strategy panics inside `despawn_portal_part`: the system ends there.
    DespawnPortalPart(cmds, w, parts.portalCamera, st.portalCamera);
    if st.portalCamera.ShouldPanic() {
      return;
    }
    DespawnPortalPart(cmds, w, parts.destination, st.destination);
    AppendAssoc(log0, a, b);
    if st.destination.ShouldPanic() {
      return;
    }
    DespawnPortalPart(cmds, w, parts.portal, st.portal);
    AppendAssoc(log0, a + b, c);
    if st.portal.ShouldPanic() {
      return;
    }
    DespawnPortalPart(cmds, w, parts.mainCamera, st.mainCamera);
    AppendAssoc(log0, a + b + c, d);
    TeardownOrder(w.live, parts, st);
  }

  lemma AppendAssoc(l: seq<Action>, a: seq<Action>, b: seq<Action>)
    ensures l + a + b == l + (a + b)
  {
  }

  /** The three ways a part query can fail; only the warning text depends on it. */
  datatype QueryError =
    | QueryDoesNotMatch(entity: Entity)
    | EntityDoesNotExist(entity: Entity)
    | AliasedMutability(entity: Entity)

  /**
    `deal_with_part_query_error`: whatever the error and whichever part it was,
    the whole portal is torn down under the strategy.
  */
  method DealWithPartQueryError(cmds: Commands, w: World, parts: PortalParts, partsEntity: Entity,
                                st: PartsStrategy, error: QueryError, partName: string)
    requires Abort !in cmds.log
    modifies cmds`log
    ensures cmds.log == old(cmds.log) + TeardownActions(w.live, parts, st)
  {
    DespawnPortalParts(cmds, w, parts, st);
  }

  /** `DespawnPortalPartsCommand::apply`: the teardown, queued into a fresh command buffer. */
  method ApplyDespawnPortalPartsCommand(w: World, parts: PortalParts, st: PartsStrategy)
    returns (cmds: Commands)
    ensures fresh(cmds)
    ensures cmds.log == TeardownActions(w.live, parts, st)
  {
    cmds := new Commands();
    DespawnPortalParts(cmds, w, parts, st);
  }

  // ---------------------------------------------------------------- entity command

  /**
    The `PortalParts` the entity command acts on: the one its `PortalPart`
    references when it has one (and none when that referent is gone), otherwise
    its own.
  */
  function ResolveParts(c: Components, e: Entity): (r: Option<PortalParts>)
    ensures e in c.partOf && c.partOf[e] !in c.partsRecords ==> r == None
    ensures e in c.partOf && c.partOf[e] in c.partsRecords ==> r == Some(c.partsRecords[c.partOf[e]])
    ensures e !in c.partOf ==> (r.Some? <==> e in c.partsRecords)
  {
    if e in c.partOf then
      if c.partOf[e] in c.partsRecords then Some(c.partsRecords[c.partOf[e]]) else None
    else if e in c.partsRecords then Some(c.partsRecords[e])
    else None
  }

  /** A part whose record is gone resolves to nothing, even when it carries a record of its own. */
  lemma ResolveNoFallback(c: Components, e: Entity)
    requires e in c.partOf && c.partOf[e] !in c.partsRecords && e in c.partsRecords
    ensures ResolveParts(c, e) == None
  {
  }

  /** The actions of `DespawnPortalPartsEntityCommand::apply` on `e`. */
  function EntityCommandActions(live: set<Entity>, c: Components, e: Entity, st: PartsStrategy): seq<Action>
  {
    match ResolveParts(c, e)
    case Some(parts) => TeardownActions(live, parts, st)
    case None => [Warn]
  }

  /** An entity the command cannot resolve only gets a warning; nothing is despawned. */
  lemma EntityCommandUnresolved(live: set<Entity>, c: Components, e: Entity, st: PartsStrategy)
    requires ResolveParts(c, e) == None
    ensures EntityCommandActions(live, c, e, st) == [Warn]
    ensures forall x :: Despawn(x) !in EntityCommandActions(live, c, e, st)
  {
  }

  /** For a part of a live portal the command tears down that portal, whichever of its parts it names. */
  lemma EntityCommandSamePortal(live: set<Entity>, c: Components, e1: Entity, e2: Entity, st: PartsStrategy)
    requires e1 in c.partOf && e2 in c.partOf && c.partOf[e1] == c.partOf[e2]
    requires c.partOf[e1] in c.partsRecords
    ensures EntityCommandActions(live, c, e1, st) == EntityCommandActions(live, c, e2, st)
    ensures EntityCommandActions(live, c, e1, st) == TeardownActions(live, c.partsRecords[c.partOf[e1]], st)
  {
  }

  /** `DespawnPortalPartsEntityCommand::apply`, queuing into `cmds`. */
  method ApplyEntityCommand(cmds: Commands, w: World, e: Entity, st: PartsStrategy)
    requires Abort !in cmds.log
    modifies cmds`log
    ensures cmds.log == old(cmds.log) + EntityCommandActions(w.live, w.c, e, st)
  {
    var parts: Option<PortalParts>;
    if e in w.c.partOf {
      parts := if w.c.partOf[e] in w.c.partsRecords then Some(w.c.partsRecords[w.c.partOf[e]]) else None;
    } else {
      parts := if e in w.c.partsRecords then Some(w.c.partsRecords[e]) else None;
    }
    if parts.Some? {
      DespawnPortalParts(cmds, w, parts.value, st);
    } else {
      cmds.Push(Warn);
    }
  }

  // ---------------------------------------------------------------- back-reference sweep

  /** The strategy the sweep uses for a part: portal first, then destination, then portal camera. */
  function SweepStrategy(c: Components, st: PartsStrategy, e: Entity): Option<PartStrategy>
  {
    if e in c.portals then Some(st.portal)
    else if e in c.destinations then Some(st.destination)
    else if e in c.portalCameras then Some(st.portalCamera)
    else None
  }

  /** The part's record is gone. */
  predicate Orphan(c: Components, e: Entity)
  {
    e in c.partOf && c.partOf[e] !in c.partsRecords
  }

  /** What the sweep queues for one `PortalPart` entity. */
  function SweepOne(live: set<Entity>, c: Components, st: PartsStrategy, e: Entity): (r: seq<Action>)
    requires e in c.partOf
    ensures !Orphan(c, e) ==> r == []
    ensures Orphan(c, e) && SweepStrategy(c, st, e) == None ==> r == [Warn]
    ensures forall i :: 0 <= i < |r| && (r[i].Despawn? || r[i].DespawnChildren?) ==>
      r[i].entity == e && Orphan(c, e)
  {
    if !Orphan(c, e) then []
    else
      match SweepStrategy(c, st, e)
      case None => [Warn]
      case Some(s) => PartActions(live, e, s)
  }

  /** The sweep over `order`, the iteration order of the `PortalPart` query, stopping at a panic. */
  function SweepActions(live: set<Entity>, c: Components, st: PartsStrategy, order: seq<Entity>): seq<Action>
    requires forall i :: 0 <= i < |order| ==> order[i] in c.partOf
    decreases |order|
  {
    if |order| == 0 then []
    else Then(SweepActions(live, c, st, order[..|order| - 1]), SweepOne(live, c, st, order[|order| - 1]))
  }

  /** Once the sweep has panicked, the rest of the parts add nothing. */
  lemma {:induction false} SweepAbortStable(live: set<Entity>, c: Components, st: PartsStrategy, order: seq<Entity>, k: nat)
    requires forall i :: 0 <= i < |order| ==> order[i] in c.partOf
    requires k <= |order|
    requires Abort in SweepActions(live, c, st, order[..k])
    ensures SweepActions(live, c, st, order) == SweepActions(live, c, st, order[..k])
    decreases |order| - k
  {
    if k < |order| {
      var p := order[..k + 1];
      assert p[..k] == order[..k];
      assert SweepActions(live, c, st, p) == SweepActions(live, c, st, order[..k]);
      SweepAbortStable(live, c, st, order, k + 1);
    } else {
      assert order[..k] == order;
    }
  }

  /** Every despawn in `r` names an entity of `order` whose record is gone. */
  predicate DespawnsOnlyOrphansOf(c: Components, order: seq<Entity>, r: seq<Action>) {
    forall i :: 0 <= i < |r| && (r[i].Despawn? || r[i].DespawnChildren?) ==>
      r[i].entity in order && Orphan(c, r[i].entity)
  }

  lemma ThenDespawnsOnlyOrphans(c: Components, order: seq<Entity>, a: seq<Action>, b: seq<Action>)
    requires DespawnsOnlyOrphansOf(c, order, a) && DespawnsOnlyOrphansOf(c, order, b)
    ensures DespawnsOnlyOrphansOf(c, order, Then(a, b))
  {
    if Abort !in a {
      var r := a + b;
      forall i | 0 <= i < |r| && (r[i].Despawn? || r[i].DespawnChildren?)
        ensures r[i].entity in order && Orphan(c, r[i].entity)
      {
        if i >= |a| {
          assert r[i] == b[i - |a|];
        }
      }
    }
  }

  lemma PrefixDespawnsOnlyOrphans(c: Components, order: seq<Entity>, n: nat, r: seq<Action>)
    requires n <= |order| && DespawnsOnlyOrphansOf(c, order[..n], r)
    ensures DespawnsOnlyOrphansOf(c, order, r)
  {
    forall i | 0 <= i < |r| && (r[i].Despawn? || r[i].DespawnChildren?)
      ensures r[i].entity in order
    {
      var k :| 0 <= k < n && order[..n][k] == r[i].entity;
      assert order[k] == r[i].entity;
    }
  }

  /** The sweep only ever despawns parts whose record is gone. */
  lemma {:induction false} SweepTargetsOnlyOrphans(live: set<Entity>, c: Components, st: PartsStrategy, order: seq<Entity>)
    requires forall i :: 0 <= i < |order| ==> order[i] in c.partOf
    ensures forall i :: 0 <= i < |SweepActions(live, c, st, order)| ==>
      var a := SweepActions(live, c, st, order)[i];
      (a.Despawn? || a.DespawnChildren?) ==> a.entity in order && Orphan(c, a.entity)
    decreases |order|
  {
    if |order| > 0 {
      var n := |order| - 1;
      SweepTargetsOnlyOrphans(live, c, st, order[..n]);
      PrefixDespawnsOnlyOrphans(c, order, n, SweepActions(live, c, st, order[..n]));
      assert DespawnsOnlyOrphansOf(c, order, SweepOne(live, c, st, order[n]));
      ThenDespawnsOnlyOrphans(c, order, SweepActions(live, c, st, order[..n]), SweepOne(live, c, st, order[n]));
    }
  }

  /**
    A sweep that does not panic despawns every live orphan whose strategy
    despawns.
  */
  lemma {:induction false} SweepDespawnsOrphans(live: set<Entity>, c: Components, st: PartsStrategy, order: seq<Entity>, e: Entity)
    requires forall i :: 0 <= i < |order| ==> order[i] in c.partOf
    requires Abort !in SweepActions(live, c, st, order)
    requires e in order && Orphan(c, e) && e in live
    requires SweepStrategy(c, st, e).Some? && SweepStrategy(c, st, e).value.ShouldDespawn()
    ensures Despawn(e) in SweepActions(live, c, st, order)
    decreases |order|
  {
    var init := order[..|order| - 1];
    var last := order[|order| - 1];
    var a := SweepActions(live, c, st, init);
    assert Abort !in a;
    assert SweepActions(live, c, st, order) == a + SweepOne(live, c, st, last);
    if last == e {
      assert Despawn(e) in SweepOne(live, c, st, last);
    } else {
      assert e in init;
      SweepDespawnsOrphans(live, c, st, init, e);
    }
  }

  /** An orphan whose strategy is Panic makes the sweep panic. */
  lemma {:induction false} SweepPanics(live: set<Entity>, c: Components, st: PartsStrategy, order: seq<Entity>, e: Entity)
    requires forall i :: 0 <= i < |order| ==> order[i] in c.partOf
    requires e in order && Orphan(c, e) && SweepStrategy(c, st, e) == Some(Panic)
    ensures Abort in SweepActions(live, c, st, order)
    decreases |order|
  {
    var init := order[..|order| - 1];
    var last := order[|order| - 1];
    var a := SweepActions(live, c, st, init);
    if Abort !in a {
      assert SweepActions(live, c, st, order) == a + SweepOne(live, c, st, last);
      if last == e {
        assert Abort in SweepOne(live, c, st, last);
      } else {
        assert e in init;
        SweepPanics(live, c, st, init, e);
      }
    }
  }

  /**
    The body of `check_portal_parts_back_references` for one `PortalPart`
    entity `e`: nothing when its record exists; otherwise a warning when it is
    none of the three parts, and the part's strategy when it is one.
  */
  method SweepPart(cmds: Commands, w: World, st: PartsStrategy, e: Entity) returns (panicked: bool)
    requires e in w.c.partOf
    modifies cmds`log
    ensures cmds.log == old(cmds.log) + SweepOne(w.live, w.c, st, e)
    ensures panicked <==> Abort in SweepOne(w.live, w.c, st, e)
  {
    panicked := false;
    if w.c.partOf[e] !in w.c.partsRecords {
      var s: PartStrategy;
      if e in w.c.portals {
        s := st.portal;
      } else if e in w.c.destinations {
        s := st.destination;
      } else if e in w.c.portalCameras {
        s := st.portalCamera;
      } else {
        cmds.Push(Warn);
        return;
      }
      DespawnPortalPart(cmds, w, e, s);
      panicked := s.ShouldPanic();
    }
  }

  /**
    `check_portal_parts_back_references`, iterating the `PortalPart` query in
    `order`, which lists every `PortalPart` entity exactly once.
  */
  method CheckPortalPartsBackReferences(cmds: Commands, w: World, st: PartsStrategy, order: seq<Entity>)
    requires Abort !in cmds.log
    requires forall i :: 0 <= i < |order| ==> order[i] in w.c.partOf
    requires VisitsEachOnce(order, w.c.partOf.Keys)
    modifies cmds`log
    ensures cmds.log == old(cmds.log) + SweepActions(w.live, w.c, st, order)
  {
    ghost var log0 := cmds.log;
    var i := 0;
    while i < |order|
      invariant 0 <= i <= |order|
      invariant cmds.log == log0 + SweepActions(w.live, w.c, st, order[..i])
      invariant Abort !in SweepActions(w.live, w.c, st, order[..i])
    {
      SweepStep(w.live, w.c, st, order, i);
      var panicked := SweepPart(cmds, w, st, order[i]);
      AppendAssoc(log0, SweepActions(w.live, w.c, st, order[..i]), SweepOne(w.live, w.c, st, order[i]));
      if panicked {
        // the panic ends the system: the remaining parts are not visited
        SweepAbortStable(w.live, w.c, st, order, i + 1);
        return;
      }
      i := i + 1;
    }
    assert order[..|order|] == order;
  }

  /** One more part extends an unpanicked sweep by that part's actions. */
  lemma SweepStep(live: set<Entity>, c: Components, st: PartsStrategy, order: seq<Entity>, i: nat)
    requires forall j :: 0 <= j < |order| ==> order[j] in c.partOf
    requires i < |order|
    ensures Abort !in SweepActions(live, c, st, order[..i]) ==>
      SweepActions(live, c, st, order[..i + 1]) == SweepActions(live, c, st, order[..i]) + SweepOne(live, c, st, order[i])
  {
    assert order[..i + 1][..i] == order[..i];
  }

  /** The default strategy never panics, so a sweep under it always runs to the end. */
  lemma {:induction false} SweepDespawnAndWarnNeverPanics(live: set<Entity>, c: Components, order: seq<Entity>)
    requires forall i :: 0 <= i < |order| ==> order[i] in c.partOf
    ensures Abort !in SweepActions(live, c, DespawnAndWarn, order)
    decreases |order|
  {
    if |order| > 0 {
      SweepDespawnAndWarnNeverPanics(live, c, order[..|order| - 1]);
    }
  }

  // ---------------------------------------------------------------- plugin setup

  /** What `build_despawn` installs: the strategy resource, and whether the sweep runs. */
  datatype DespawnSetup = DespawnSetup(resource: PartsStrategy, sweepRegistered: bool)

  /** `build_despawn`. */
  function BuildDespawn(strategy: Option<PartsStrategy>, checkBackReferences: bool): (r: DespawnSetup)
    ensures r.sweepRegistered == checkBackReferences
    ensures strategy == None ==> r.resource == DefaultPartsStrategy
    ensures strategy.Some? ==> r.resource == strategy.value
  {
    DespawnSetup(if strategy.Some? then strategy.value else DefaultPartsStrategy, checkBackReferences)
  }

  /** The default plugin installs DESPAWN_AND_WARN with the sweep; MINIMAL installs PANIC without it. */
  lemma BuildDespawnPlugins()
    ensures BuildDespawn(DefaultPlugin.despawnStrategy, DefaultPlugin.checkPortalPartsBackReferences)
         == DespawnSetup(DespawnAndWarn, true)
    ensures BuildDespawn(MinimalPlugin.despawnStrategy, MinimalPlugin.checkPortalPartsBackReferences)
         == DespawnSetup(PanicStrategy, false)
  {
  }
}
