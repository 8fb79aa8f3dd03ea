/** VTX control: the arming lockout and the channel-activation matcher.

    `locked` is a one-way latch set whenever the craft is observed armed.
    While unlocked, `UpdateActivatedChannel` scans the activation
    conditions in index order and records in `lastIndex` the lowest active
    one that differs from the index recorded before. The call to the VTX
    device that would apply the matched band and channel is commented out
    in the source, so `locked`, `lastIndex` and the storage trace are all
    this component changes. */
module VtxControl {
  import opened CTypes

  /** `MAX_CHANNEL_ACTIVATION_CONDITION_COUNT`. The proofs rely only on it
      being below 255, the initial `lastIndex`. */
  const MaxConditions: nat := 10

  /** `lastIndex` is a `static uint8_t` initialised with -1. */
  const NoIndex: uint8 := 0xFF

  /** Calls into persistent storage. */
  datatype StorageEvent = WriteEeprom | ReadEeprom

  /** The outcome of the scan from some index on. */
  datatype Match = NoMatch | MatchAt(index: nat)

  /** The lowest index `k >= i` whose condition is active and which is not
      `last`, if there is one. */
  function SearchFrom(active: seq<bool>, last: uint8, i: nat): (r: Match)
    requires i <= |active|
    ensures r.MatchAt? ==>
      i <= r.index < |active| && active[r.index] && r.index != last &&
      forall j :: i <= j < r.index ==> !active[j] || j == last
    ensures r.NoMatch? ==> forall j :: i <= j < |active| ==> !active[j] || j == last
    decreases |active| - i
  {
    if i == |active| then NoMatch
    else if active[i] && i != last then MatchAt(i)
    else SearchFrom(active, last, i + 1)
  }

  /** The `lastIndex` an unlocked scan leaves: the first match, or the old
      value when nothing matches. */
  function Selected(active: seq<bool>, last: uint8): uint8
    requires |active| == MaxConditions
  {
    match SearchFrom(active, last, 0)
    case MatchAt(k) => k
    case NoMatch => last
  }

  /** An unlocked scan either leaves `lastIndex` alone or moves it to the
      least active condition other than the old one; in the second case it
      is a valid condition index. */
  lemma SelectedIsLeastOther(active: seq<bool>, last: uint8)
    requires |active| == MaxConditions
    ensures Selected(active, last) == last || Selected(active, last) < MaxConditions
    ensures Selected(active, last) != last ==>
      active[Selected(active, last)] &&
      forall j :: 0 <= j < Selected(active, last) ==> !active[j] || j == last
    ensures Selected(active, last) == last <==>
      forall j :: 0 <= j < MaxConditions ==> !active[j] || j == last
  {
  }

  /** From the initial `lastIndex`, the first scan with any active condition
      selects the lowest active one: of two overlapping conditions the
      lower-indexed wins. */
  lemma FirstSelectionIsLowest(active: seq<bool>, k: nat)
    requires |active| == MaxConditions
    requires k < MaxConditions && active[k]
    requires forall j :: 0 <= j < k ==> !active[j]
    ensures Selected(active, NoIndex) == k
  {
  }

  /** When the only active condition is the one already recorded, the scan
      changes nothing, so repeating it is idempotent. */
  lemma StableWhenOnlyLastActive(active: seq<bool>, last: uint8)
    requires |active| == MaxConditions
    requires forall j :: 0 <= j < MaxConditions && active[j] ==> j == last
    ensures Selected(active, last) == last
    ensures Selected(active, Selected(active, last)) == last
  {
  }

  /** With exactly two conditions active, successive scans alternate
      between them: the matcher is not stable under overlapping ranges. */
  lemma AlternatesUnderOverlap(active: seq<bool>, i: nat, j: nat)
    requires |active| == MaxConditions
    requires i < j < MaxConditions
    requires forall k :: 0 <= k < MaxConditions ==> (active[k] <==> k == i || k == j)
    ensures Selected(active, NoIndex) == i
    ensures Selected(active, i) == j
    ensures Selected(active, j) == i
  {
    assert active[i] && active[j];
    var fromNone := SearchFrom(active, NoIndex, 0);
    assert fromNone.MatchAt? && fromNone.index <= i;
    var fromI := SearchFrom(active, i as uint8, 0);
    assert fromI.MatchAt? && fromI.index <= j;
    assert fromI.index != i;
  }

  /** The module-level `locked` latch, the static `lastIndex` and the
      storage calls made so far. */
  class Controller {
    var locked: bool
    var lastIndex: uint8
    ghost var storage: seq<StorageEvent>

    /** Power-on state. */
    constructor ()
      ensures !locked && lastIndex == NoIndex && storage == []
    {
      locked := false;
      lastIndex := NoIndex;
      storage := [];
    }

    /** `setChannelSaveAndNotify`: latches `locked` when armed, then, only
        while unlocked, writes and re-reads the stored configuration. */
    method SetChannelSaveAndNotify(armed: bool)
      modifies this`locked, this`storage
      ensures locked == (old(locked) || armed)
      ensures storage == old(storage) + (if locked then [] else [WriteEeprom, ReadEeprom])
    {
      if armed {
        locked := true;
      }
      if !locked {
        storage := storage + [WriteEeprom];
        storage := storage + [ReadEeprom];
      }
    }

    /** `vtxUpdateActivatedChannel`: latches `locked` when armed; while
        unlocked, records the lowest active condition other than the one
        recorded before. `active[k]` is `isRangeActive` of condition k. */
    method UpdateActivatedChannel(armed: bool, active: seq<bool>)
      requires |active| == MaxConditions
      modifies this`locked, this`lastIndex
      ensures locked == (old(locked) || armed)
      ensures lastIndex == if locked then old(lastIndex) else Selected(active, old(lastIndex))
    {
      if armed {
        locked := true;
      }
      if !locked {
        var index: nat := 0;
        while index < MaxConditions
          invariant index <= MaxConditions
          invariant lastIndex == old(lastIndex)
          invariant SearchFrom(active, lastIndex, index) == SearchFrom(active, lastIndex, 0)
        {
          if active[index] && index != lastIndex {
            lastIndex := index;
            break;
          }
          index := index + 1;
        }
      }
    }

    /** `vtxIncrementBand`: not implemented in the source; changes nothing. */
    method IncrementBand()
      ensures unchanged(this)
    {
    }

    /** `vtxDecrementBand`: not implemented in the source; changes nothing. */
    method DecrementBand()
      ensures unchanged(this)
    {
    }

    /** `vtxIncrementChannel`: not implemented in the source; changes nothing. */
    method IncrementChannel()
      ensures unchanged(this)
    {
    }

    /** `vtxDecrementChannel`: not implemented in the source; changes nothing. */
    method DecrementChannel()
      ensures unchanged(this)
    {
    }
  }

  /** Two conditions active at once, from power-on and unarmed: the first
      call records the lower one, the second the higher, the third the
      lower again. A save before arming writes and re-reads storage once.
      Once armed, nothing moves, whatever is active, and a later save
      touches storage no more. */
  method OverlapThenArm(active: seq<bool>, i: nat, j: nat, other: seq<bool>)
    returns (first: uint8, second: uint8, third: uint8, afterArm: uint8, locked: bool,
             ghost storage: seq<StorageEvent>)
    requires |active| == MaxConditions && |other| == MaxConditions
    requires i < j < MaxConditions
    requires forall k :: 0 <= k < MaxConditions ==> (active[k] <==> k == i || k == j)
    ensures first == i && second == j && third == i
    ensures afterArm == third && locked
    ensures storage == [WriteEeprom, ReadEeprom]
  {
    var c := new Controller();
    AlternatesUnderOverlap(active, i, j);
    c.UpdateActivatedChannel(false, active);
    first := c.lastIndex;
    c.UpdateActivatedChannel(false, active);
    second := c.lastIndex;
    c.UpdateActivatedChannel(false, active);
    third := c.lastIndex;
    c.SetChannelSaveAndNotify(false);
    c.UpdateActivatedChannel(true, other);
    c.UpdateActivatedChannel(false, other);
    c.SetChannelSaveAndNotify(false);
    afterArm, locked := c.lastIndex, c.locked;
    storage := c.storage;
  }
}
