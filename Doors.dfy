/** Single-bit tests on 32-bit words. */
module Bits {
  /** Masking with a one-bit word tests that bit. */
  lemma SingleBit(mask: bv32, k: bv32)
    requires k < 32
    ensures (1 << k) & mask != 0 <==> (mask >> k) & 1 == 1
  {
    SetBitSeen(mask, k);
    SeenBitSet(mask, k);
  }

  lemma SetBitSeen(mask: bv32, k: bv32)
    requires k < 32
    ensures (1 << k) & mask != 0 ==> (mask >> k) & 1 == 1
  {
  }

  lemma SeenBitSet(mask: bv32, k: bv32)
    requires k < 32
    ensures (mask >> k) & 1 == 1 ==> (1 << k) & mask != 0
  {
  }
}

/** An automatic door: colliders on the trigger layers open it on entry and
    close it on exit, through an Animator bool parameter. The door keeps
    its own open flag, so repeated requests are ignored. */
module Doors {
  import opened Bits

  /** A LayerMask as the 32-bit integer it converts to; -1 (all layers) is
      every bit set. */
  type LayerMask = bv32

  const AllLayers: LayerMask := 0xFFFF_FFFF

  /** The shift count of `1 << layer` on a C# int: the layer modulo 32. */
  function ShiftCount(layer: int): (r: bv32)
    ensures r < 32
  {
    (layer % 32) as bv32
  }

  /** The trigger test: ((1 << layer) & mask) != 0. */
  predicate OnTriggerLayer(layer: int, mask: LayerMask)
  {
    (1 << ShiftCount(layer)) & mask != 0
  }

  /** The test reads bit (layer mod 32) of the mask. */
  lemma TriggerLayerBit(layer: int, mask: LayerMask)
    ensures OnTriggerLayer(layer, mask) <==> (mask >> ShiftCount(layer)) & 1 == 1
  {
    SingleBit(mask, ShiftCount(layer));
  }

  /** Every layer passes the default all-layers mask, none passes an empty
      mask, and layers 32 apart are indistinguishable. */
  lemma TriggerLayerMasks(layer: int, mask: LayerMask)
    ensures OnTriggerLayer(layer, AllLayers)
    ensures !OnTriggerLayer(layer, 0)
    ensures OnTriggerLayer(layer + 32, mask) == OnTriggerLayer(layer, mask)
  {
    assert (layer + 32) % 32 == layer % 32;
    SingleBit(AllLayers, ShiftCount(layer));
  }

  /** The door's state: whether it has an Animator, and whether it is open. */
  datatype DoorState = DoorState(hasAnimator: bool, isOpen: bool)

  datatype DoorOp = Open | Close | Toggle

  /** OpenDoor, CloseDoor and ToggleDoor on the state. */
  function Apply(s: DoorState, op: DoorOp): (r: DoorState)
    ensures r.hasAnimator == s.hasAnimator
    ensures !s.hasAnimator ==> r == s
    decreases if op.Toggle? then 1 else 0
  {
    match op
    case Open => if s.hasAnimator && !s.isOpen then s.(isOpen := true) else s
    case Close => if s.hasAnimator && s.isOpen then s.(isOpen := false) else s
    case Toggle => if s.isOpen then Apply(s, Close) else Apply(s, Open)
  }

  /** Opening and closing are idempotent; with an Animator, Open leaves
      the door open, Close leaves it closed, Toggle flips it and two
      toggles restore it. */
  lemma DoorLaws(s: DoorState)
    ensures Apply(Apply(s, Open), Open) == Apply(s, Open)
    ensures Apply(Apply(s, Close), Close) == Apply(s, Close)
    ensures s.hasAnimator ==> Apply(s, Open).isOpen && !Apply(s, Close).isOpen
    ensures s.hasAnimator ==> Apply(s, Toggle).isOpen == !s.isOpen
    ensures Apply(Apply(s, Toggle), Toggle) == s
  {
  }

  class DoorMotion {
    var openParameterName: string
    var triggerLayers: LayerMask
    var hasAnimator: bool
    var isOpen: bool
    /** The Animator.SetBool calls made, in order. */
    var animatorCalls: seq<(string, bool)>

    function State(): DoorState
      reads this`hasAnimator, this`isOpen
    {
      DoorState(hasAnimator, isOpen)
    }

    /** The inspector defaults; Awake looks up the Animator. */
    constructor (hasAnimator: bool)
      ensures openParameterName == "DoorIsOpening" && triggerLayers == AllLayers
      ensures State() == DoorState(hasAnimator, false) && animatorCalls == []
    {
      openParameterName := "DoorIsOpening";
      triggerLayers := AllLayers;
      this.hasAnimator := hasAnimator;
      isOpen := false;
      animatorCalls := [];
    }

    /** OpenDoor: with an Animator and a closed door, the parameter is set
        true and the door is open; otherwise nothing happens. */
    method OpenDoor()
      modifies this`isOpen, this`animatorCalls
      ensures State() == Apply(old(State()), Open)
      ensures animatorCalls == old(animatorCalls)
        + (if old(hasAnimator && !isOpen) then [(openParameterName, true)] else [])
    {
      if hasAnimator && !isOpen {
        animatorCalls := animatorCalls + [(openParameterName, true)];
        isOpen := true;
      }
    }

    /** CloseDoor: with an Animator and an open door, the parameter is set
        false and the door is closed; otherwise nothing happens. */
    method CloseDoor()
      modifies this`isOpen, this`animatorCalls
      ensures State() == Apply(old(State()), Close)
      ensures animatorCalls == old(animatorCalls)
        + (if old(hasAnimator && isOpen) then [(openParameterName, false)] else [])
    {
      if hasAnimator && isOpen {
        animatorCalls := animatorCalls + [(openParameterName, false)];
        isOpen := false;
      }
    }

    /** ToggleDoor: CloseDoor when open, OpenDoor when closed. */
    method ToggleDoor()
      modifies this`isOpen, this`animatorCalls
      ensures State() == Apply(old(State()), Toggle)
      ensures animatorCalls == old(animatorCalls)
        + (if old(hasAnimator) then [(openParameterName, !old(isOpen))] else [])
    {
      if isOpen {
        CloseDoor();
      } else {
        OpenDoor();
      }
    }

    /** OnTriggerEnter with the entering collider's layer. */
    method OnTriggerEnter(layer: int)
      modifies this`isOpen, this`animatorCalls
      ensures State() == if OnTriggerLayer(layer, triggerLayers) then Apply(old(State()), Open) else old(State())
      ensures animatorCalls == old(animatorCalls)
        + (if OnTriggerLayer(layer, triggerLayers) && old(hasAnimator && !isOpen) then [(openParameterName, true)] else [])
    {
      if OnTriggerLayer(layer, triggerLayers) {
        OpenDoor();
      }
    }

    /** OnTriggerExit with the leaving collider's layer. */
    method OnTriggerExit(layer: int)
      modifies this`isOpen, this`animatorCalls
      ensures State() == if OnTriggerLayer(layer, triggerLayers) then Apply(old(State()), Close) else old(State())
      ensures animatorCalls == old(animatorCalls)
        + (if OnTriggerLayer(layer, triggerLayers) && old(hasAnimator && isOpen) then [(openParameterName, false)] else [])
    {
      if OnTriggerLayer(layer, triggerLayers) {
        CloseDoor();
      }
    }
  }
}
