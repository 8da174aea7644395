/**
 * The sapling puzzle (`SaplingPuzzle`): seeds dropped into a trigger zone
 * are counted as a set; once enough are present the sapling can be shifted,
 * once, into a tree, consuming the seeds.
 */
module Sapling {
  import opened Engine
  import opened Seed

  /** A trigger callback of the detection zone for a collider that carries a seed. */
  datatype ZoneEvent<T> = Entered(seed: T) | Left(seed: T)

  /** The seeds in the zone after `events`, starting from `start`: entries add, exits remove. */
  function ZoneAfter<T(==)>(start: set<T>, events: seq<ZoneEvent<T>>): set<T>
    decreases |events|
  {
    if events == [] then start
    else
      var before := ZoneAfter(start, events[..|events| - 1]);
      match events[|events| - 1]
      case Entered(s) => before + {s}
      case Left(s) => before - {s}
  }

  /** Whether the last event about `s` is an entry, or `None` when there is no event about `s`. */
  function LastEventIsEntry<T(==)>(events: seq<ZoneEvent<T>>, s: T): Option<bool>
    decreases |events|
  {
    if events == [] then None
    else if events[|events| - 1].seed == s then Some(events[|events| - 1].Entered?)
    else LastEventIsEntry(events[..|events| - 1], s)
  }

  /**
   * A seed is in the zone exactly when its last event was an entry; with no
   * event about it, exactly when it was there at the start. Entering twice
   * counts once, and leaving when absent does nothing.
   */
  lemma {:induction false} ZoneMembership<T>(start: set<T>, events: seq<ZoneEvent<T>>, s: T)
    ensures s in ZoneAfter(start, events) <==>
      (if LastEventIsEntry(events, s).Some? then LastEventIsEntry(events, s).value else s in start)
    decreases |events|
  {
    if events != [] {
      ZoneMembership(start, events[..|events| - 1], s);
    }
  }

  /** Only seeds that entered at some point, or were there at the start, can be in the zone. */
  lemma {:induction false} ZoneBounded<T>(start: set<T>, events: seq<ZoneEvent<T>>)
    ensures ZoneAfter(start, events) <= start + (set i | 0 <= i < |events| && events[i].Entered? :: events[i].seed)
    decreases |events|
  {
    if events != [] {
      var prefix := events[..|events| - 1];
      ZoneBounded(start, prefix);
      var entered := set i | 0 <= i < |events| && events[i].Entered? :: events[i].seed;
      var enteredBefore := set i | 0 <= i < |prefix| && prefix[i].Entered? :: prefix[i].seed;
      assert enteredBefore <= entered by {
        forall x | x in enteredBefore ensures x in entered {
          var i :| 0 <= i < |prefix| && prefix[i].Entered? && prefix[i].seed == x;
          assert events[i] == prefix[i];
        }
      }
      if events[|events| - 1].Entered? {
        assert events[|events| - 1].seed in entered;
      }
    }
  }

  /** What `UpdateInteractableState` computes. */
  function Ready(count: nat, requiredSeeds: int, isShifted: bool): (b: bool)
  {
    count >= requiredSeeds && !isShifted
  }

  /** The zone's seeds and the interactable flag. */
  datatype Zone<T> = Zone(seeds: set<T>, canInteract: bool)

  /** One trigger callback for a seed, followed by `UpdateInteractableState`. */
  function ZoneStep<T(==)>(z: Zone<T>, e: ZoneEvent<T>, requiredSeeds: int, isShifted: bool): (r: Zone<T>)
    ensures r.seeds == ZoneAfter(z.seeds, [e])
    ensures r.canInteract == Ready(|r.seeds|, requiredSeeds, isShifted)
  {
    assert [e][..0] == [];
    var seeds := match e case Entered(s) => z.seeds + {s} case Left(s) => z.seeds - {s};
    Zone(seeds, Ready(|seeds|, requiredSeeds, isShifted))
  }

  /** The callbacks `events`, handled one after the other. */
  function ZoneRun<T(==)>(z: Zone<T>, events: seq<ZoneEvent<T>>, requiredSeeds: int, isShifted: bool): Zone<T>
    decreases |events|
  {
    if events == [] then z else ZoneRun(ZoneStep(z, events[0], requiredSeeds, isShifted), events[1..], requiredSeeds, isShifted)
  }

  /** Handling a first event and then the rest is handling them all. */
  lemma {:induction false} ZoneAfterCons<T>(start: set<T>, e: ZoneEvent<T>, rest: seq<ZoneEvent<T>>)
    ensures ZoneAfter(ZoneAfter(start, [e]), rest) == ZoneAfter(start, [e] + rest)
    decreases |rest|
  {
    if rest == [] {
      assert [e] + rest == [e];
    } else {
      ZoneAfterCons(start, e, rest[..|rest| - 1]);
      assert ([e] + rest)[..|[e] + rest| - 1] == [e] + rest[..|rest| - 1];
    }
  }

  /**
   * After any non-empty run of seed entries and exits, the zone holds the
   * seeds `ZoneAfter` gives, and the sapling is interactable exactly when
   * their count is enough and it is not shifted.
   */
  lemma {:induction false} ZoneRunReady<T>(z: Zone<T>, events: seq<ZoneEvent<T>>, requiredSeeds: int, isShifted: bool)
    ensures ZoneRun(z, events, requiredSeeds, isShifted).seeds == ZoneAfter(z.seeds, events)
    ensures events != [] ==>
      ZoneRun(z, events, requiredSeeds, isShifted).canInteract == Ready(|ZoneAfter(z.seeds, events)|, requiredSeeds, isShifted)
    decreases |events|
  {
    if events != [] {
      var next := ZoneStep(z, events[0], requiredSeeds, isShifted);
      ZoneRunReady(next, events[1..], requiredSeeds, isShifted);
      ZoneAfterCons(z.seeds, events[0], events[1..]);
      assert [events[0]] + events[1..] == events;
    }
  }

  /** The game objects of a set of seeds. */
  function SeedObjects(seeds: set<SeedObject>): set<GameObject>
  {
    set s | s in seeds :: s.gameObject
  }

  class SaplingPuzzle {
    const requiredSeeds: int
    const saplingModel: GameObject?
    const treeModel: GameObject?
    const seedDetectionZone: Collider?
    var isShifted: bool
    var seedsInZone: set<SeedObject>
    var canInteract: bool

    /** The scene objects the shift writes to, where assigned. */
    function Scene(): set<object>
      reads this
    {
      (if saplingModel != null then {saplingModel} else {})
      + (if treeModel != null then {treeModel} else {})
      + (if seedDetectionZone != null then {seedDetectionZone} else {})
    }

    /** The puzzle can only be ready to shift with enough seeds in the zone. */
    ghost predicate Valid()
      reads this
    {
      canInteract && !isShifted ==> |seedsInZone| >= requiredSeeds
    }

    /** The field initialisers; `isShifted` is the value configured for the scene. */
    constructor (requiredSeeds: int, saplingModel: GameObject?, treeModel: GameObject?, seedDetectionZone: Collider?, isShifted: bool)
      ensures this.requiredSeeds == requiredSeeds && this.saplingModel == saplingModel
      ensures this.treeModel == treeModel && this.seedDetectionZone == seedDetectionZone
      ensures this.isShifted == isShifted && seedsInZone == {} && !canInteract
      ensures Valid()
    {
      this.requiredSeeds := requiredSeeds;
      this.saplingModel := saplingModel;
      this.treeModel := treeModel;
      this.seedDetectionZone := seedDetectionZone;
      this.isShifted := isShifted;
      seedsInZone := {};
      canInteract := false;
    }

    /** The tree is hidden and the sapling shown (the sapling wins if both are the same object). */
    method Start()
      modifies saplingModel, treeModel
      ensures saplingModel != null ==> saplingModel.active
      ensures treeModel != null && treeModel != saplingModel ==> !treeModel.active
    {
      if treeModel != null {
        treeModel.active := false;
      }
      if saplingModel != null {
        saplingModel.active := true;
      }
    }

    /** `seed` is what `other.GetComponent<SeedObject>()` returns for the entering collider. */
    method OnTriggerEnter(seed: SeedObject?)
      requires Valid()
      modifies this
      ensures Valid()
      ensures seed != null ==> seedsInZone == old(seedsInZone) + {seed}
      ensures seed != null ==> canInteract == Ready(|seedsInZone|, requiredSeeds, isShifted)
      ensures seed != null ==> Zone(seedsInZone, canInteract) == ZoneStep<SeedObject>(old(Zone(seedsInZone, canInteract)), Entered(seed as SeedObject), requiredSeeds, isShifted)
      ensures seed == null ==> unchanged(this)
      ensures isShifted == old(isShifted)
    {
      if seed != null {
        seedsInZone := seedsInZone + {seed};
        UpdateInteractableState();
      }
    }

    method OnTriggerExit(seed: SeedObject?)
      requires Valid()
      modifies this
      ensures Valid()
      ensures seed != null ==> seedsInZone == old(seedsInZone) - {seed}
      ensures seed != null ==> canInteract == Ready(|seedsInZone|, requiredSeeds, isShifted)
      ensures seed != null ==> Zone(seedsInZone, canInteract) == ZoneStep<SeedObject>(old(Zone(seedsInZone, canInteract)), Left(seed as SeedObject), requiredSeeds, isShifted)
      ensures seed == null ==> unchanged(this)
      ensures isShifted == old(isShifted)
    {
      if seed != null {
        seedsInZone := seedsInZone - {seed};
        UpdateInteractableState();
      }
    }

    method UpdateInteractableState()
      modifies this`canInteract
      ensures canInteract == Ready(|seedsInZone|, requiredSeeds, isShifted)
      ensures Valid()
    {
      canInteract := |seedsInZone| >= requiredSeeds && !isShifted;
    }

    /** Interacting shifts the sapling when the puzzle is ready, and does nothing otherwise. */
    method Interact(interactor: GameObject)
      requires Valid()
      modifies this, saplingModel, treeModel, seedDetectionZone, SeedObjects(seedsInZone)
      ensures Valid()
      ensures !old(canInteract) || old(isShifted) ==>
        unchanged(this) && unchanged(Scene()) && unchanged(SeedObjects(old(seedsInZone)))
      ensures old(canInteract) ==> ShiftedFrom(old(seedsInZone), old(isShifted))
      ensures canInteract == old(canInteract)
    {
      if canInteract {
        Shift(1);
      }
    }

    /**
     * What a completed `Shift` leaves behind, from the seeds `seeds` and flag
     * `wasShifted` it started with: nothing at all if it was already shifted;
     * otherwise shifted, the seeds hidden and forgotten, the sapling hidden,
     * the tree shown (the tree wins over any object hidden before it) and the
     * zone disabled.
     */
    ghost predicate ShiftedFrom(seeds: set<SeedObject>, wasShifted: bool)
      reads this, saplingModel, treeModel, seedDetectionZone, SeedObjects(seeds)
    {
      && isShifted
      && (!wasShifted ==>
        && seedsInZone == {}
        && (forall s :: s in seeds && s.gameObject != treeModel ==> !s.gameObject.active)
        && (saplingModel != null && saplingModel != treeModel ==> !saplingModel.active)
        && (treeModel != null ==> treeModel.active)
        && (seedDetectionZone != null ==> !seedDetectionZone.enabled))
    }

    /** The shift itself: refused unless ready and not yet shifted; `direction` is ignored. */
    method Shift(direction: int)
      requires Valid()
      modifies this, saplingModel, treeModel, seedDetectionZone, SeedObjects(seedsInZone)
      ensures Valid()
      ensures !old(canInteract) || old(isShifted) ==>
        unchanged(this) && unchanged(Scene()) && unchanged(SeedObjects(old(seedsInZone)))
      ensures old(canInteract) && !old(isShifted) ==> ShiftedFrom(old(seedsInZone), false)
      ensures old(isShifted) ==> isShifted
      ensures canInteract == old(canInteract)
    {
      if !canInteract || isShifted {
        return;
      }
      isShifted := true;
      if saplingModel != null {
        saplingModel.active := false;
      }
      var remaining := seedsInZone;
      ghost var seeds := seedsInZone;
      while remaining != {}
        invariant remaining <= seeds
        invariant forall s :: s in seeds - remaining ==> !s.gameObject.active
        invariant saplingModel != null ==> !saplingModel.active
        invariant seedsInZone == seeds && isShifted
        modifies SeedObjects(seeds)
        decreases |remaining|
      {
        var seed :| seed in remaining;
        seed.gameObject.active := false;
        remaining := remaining - {seed};
      }
      seedsInZone := {};
      if treeModel != null {
        treeModel.active := true;
      }
      if seedDetectionZone != null {
        seedDetectionZone.enabled := false;
      }
    }

    function CanShift(): (b: bool)
      reads this
      ensures b <==> canInteract && !isShifted
      ensures Valid() && b ==> |seedsInZone| >= requiredSeeds
    {
      canInteract && !isShifted
    }

    /** 1 once the sapling has become a tree, 0 before. */
    function GetState(): (r: int)
      reads this
      ensures r == 0 || r == 1
      ensures r == 1 <==> isShifted
    {
      if isShifted then 1 else 0
    }
  }
}
