/**
 * Motion controllers: turn each tracked right hand into a position, emit it on
 * the sender and hand it to the `onNewPosition` callback.
 *
 * The banked and translational controller classes differ only in that the
 * banked one has `calculateNewPosition`; here they are one class tagged with a
 * `Variant`. The options object is a JavaScript object shared by reference: every
 * controller's constructor merges its caller's options INTO the module's single
 * defaults object and keeps that very object as its own options.
 *
 * The sender and the callbacks are observed through an `EffectLog`, the
 * sequence of emits and callback invocations in the order they happen.
 */
module MotionHandler {
  import opened Wrappers
  import opened Geometry
  import opened Helpers

  /** A function value an options object can hold; `NoOp` is the default `function(pos){}`. */
  datatype Callback = NoOp | UserCallback(id: nat)

  /** A JavaScript value stored under an options key. */
  datatype Value =
    | Undefined
    | Null
    | Bool(b: bool)
    | Num(n: real)
    | Str(s: string)
    | Function(callback: Callback)
    | Object(id: nat)

  /**
   * JavaScript truthiness, as the `?:` test applies it: the falsy values are
   * `undefined`, `null`, `false`, `0` and the empty string, and every function
   * and object is truthy (NaN, a falsy number, is not modelled).
   */
  function Truthy(v: Value): (b: bool)
    ensures !b <==> v in {Undefined, Null, Bool(false), Num(0.0), Str("")}
  {
    match v
    case Undefined => false
    case Null => false
    case Bool(b) => b
    case Num(n) => n != 0.0
    case Str(s) => s != ""
    case Function(_) => true
    case Object(_) => true
  }

  /** Property access: a missing key reads as `undefined`. */
  function Get(props: map<string, Value>, key: string): Value
  {
    if key in props then props[key] else Undefined
  }

  /** The contents of `defaultOptions` when the module is loaded. */
  const DefaultOptions: map<string, Value> :=
    map["onNewPosition" := Function(NoOp), "newPositionEventName" := Str("newPosition")]

  /** `_.assign(target, source)`: every own key of the source is written over the target. */
  function Assign(target: map<string, Value>, source: map<string, Value>): (r: map<string, Value>)
    ensures r.Keys == target.Keys + source.Keys
    ensures forall k :: k in source ==> r[k] == source[k]
    ensures forall k :: k in target && k !in source ==> r[k] == target[k]
  {
    target + source
  }

  datatype Variant = Banked | Translational

  /** The factory's choice: banked exactly when `options.bankedController` is truthy. */
  function SelectVariant(options: map<string, Value>): (v: Variant)
    ensures v == Banked <==> Truthy(Get(options, "bankedController"))
  {
    if Truthy(Get(options, "bankedController")) then Banked else Translational
  }

  /** The object `calculateNewPosition` builds: roll, pitch and yaw, and nothing else. */
  datatype Position = Position(roll: Number, pitch: Number, yaw: real)

  function BankedPosition(hand: Hand, atan: real -> real): Position
  {
    Position(Roll(hand, atan), Pitch(hand, atan), CalculateYaw(hand))
  }

  /** What the sender and the callbacks observe. */
  datatype Effect =
    | Emitted(eventName: Value, position: Position)
    | Called(callback: Callback, position: Position)

  /** The TypeErrors `onHand` can raise. */
  datatype Failure =
    | NoCalculateNewPosition      // `this.calculateNewPosition` is undefined
    | NotAFunction(value: Value)  // `this.options.onNewPosition` is not callable

  /** The effects of one `onHand` call, in order, and the error it ends with, if any. */
  datatype Outcome = Outcome(effects: seq<Effect>, failure: Option<Failure>)

  /**
   * What `onHand` does with one hand, given the options it reads at that moment.
   * At most an emit and a callback happen, only for a right hand on the banked
   * variant; the call succeeds with both exactly when `onNewPosition` is a function.
   */
  function HandOutcome(variant: Variant, options: map<string, Value>, hand: Hand, atan: real -> real): (r: Outcome)
    ensures |r.effects| <= 2
    ensures r.effects != [] ==> hand.handType == "right" && variant == Banked
    ensures r.failure.Some? ==> hand.handType == "right"
    ensures hand.handType == "right" && variant == Banked ==>
      (|r.effects| == 2 <==> r.failure.None?) && (|r.effects| == 2 <==> Get(options, "onNewPosition").Function?)
  {
    if hand.handType != "right" then Outcome([], None)
    else if variant.Translational? then Outcome([], Some(NoCalculateNewPosition))
    else
      var position := BankedPosition(hand, atan);
      var emitted := Emitted(Get(options, "newPositionEventName"), position);
      var onNewPosition := Get(options, "onNewPosition");
      if onNewPosition.Function? then Outcome([emitted, Called(onNewPosition.callback, position)], None)
      else Outcome([emitted], Some(NotAFunction(onNewPosition)))
  }

  /** A JavaScript object holding options; controllers share it by reference. */
  class OptionsObject {
    var props: map<string, Value>

    constructor (props: map<string, Value>)
      ensures this.props == props
    {
      this.props := props;
    }
  }

  /** The sender and the callbacks, as the sequence of effects they have seen. */
  class EffectLog {
    var effects: seq<Effect>

    constructor ()
      ensures effects == []
    {
      effects := [];
    }
  }

  class MotionController {
    const variant: Variant
    const options: OptionsObject

    /** Merges the caller's options into the shared defaults object and keeps that same object as its options. */
    constructor (variant: Variant, defaultOptions: OptionsObject, supplied: map<string, Value>)
      modifies defaultOptions
      ensures this.variant == variant && this.options == defaultOptions
      ensures defaultOptions.props == Assign(old(defaultOptions.props), supplied)
    {
      this.variant := variant;
      defaultOptions.props := Assign(defaultOptions.props, supplied);
      this.options := defaultOptions;
    }

    /** `BankedMotionController.calculateNewPosition`; the translational class has none. */
    method CalculateNewPosition(hand: Hand, atan: real -> real) returns (position: Position)
      requires variant == Banked
      ensures position == BankedPosition(hand, atan)
    {
      var roll := CalculateRoll(hand, atan);
      var pitch := CalculatePitch(hand, atan);
      position := Position(roll, pitch, CalculateYaw(hand));
    }

    /** `onHand`: for a right hand, emit the new position, then pass it to the callback. */
    method OnHand(hand: Hand, sender: EffectLog, atan: real -> real) returns (failure: Option<Failure>)
      modifies sender
      ensures var outcome := HandOutcome(variant, options.props, hand, atan);
        sender.effects == old(sender.effects) + outcome.effects && failure == outcome.failure
    {
      if hand.handType != "right" {
        return None;
      }
      if variant == Translational {
        return Some(NoCalculateNewPosition);
      }
      var newPosition := CalculateNewPosition(hand, atan);
      sender.effects := sender.effects + [Emitted(Get(options.props, "newPositionEventName"), newPosition)];
      var onNewPosition := Get(options.props, "onNewPosition");
      if !onNewPosition.Function? {
        return Some(NotAFunction(onNewPosition));
      }
      sender.effects := sender.effects + [Called(onNewPosition.callback, newPosition)];
      failure := None;
    }
  }

  /** The module: its one `defaultOptions` object and the exported factory. */
  class ControllerModule {
    const defaultOptions: OptionsObject

    /** Module load. */
    constructor ()
      ensures fresh(defaultOptions) && defaultOptions.props == DefaultOptions
    {
      defaultOptions := new OptionsObject(DefaultOptions);
    }

    /** The exported factory. */
    method CreateController(options: map<string, Value>) returns (controller: MotionController)
      modifies defaultOptions
      ensures fresh(controller)
      ensures controller.variant == SelectVariant(options) && controller.options == defaultOptions
      ensures defaultOptions.props == Assign(old(defaultOptions.props), options)
    {
      if Truthy(Get(options, "bankedController")) {
        controller := new MotionController(Banked, defaultOptions, options);
      } else {
        controller := new MotionController(Translational, defaultOptions, options);
      }
    }
  }

  /**
   * Two controllers made one after the other share one options object, and the
   * second sees every key the first caller supplied and the second did not.
   */
  method SecondControllerInherits(m: ControllerModule, first: map<string, Value>, second: map<string, Value>)
    returns (c1: MotionController, c2: MotionController)
    modifies m.defaultOptions
    ensures c1.options == c2.options == m.defaultOptions
    ensures forall k :: k in first && k !in second ==> Get(c2.options.props, k) == first[k]
    ensures forall k :: k in second ==> Get(c1.options.props, k) == second[k]
  {
    c1 := m.CreateController(first);
    c2 := m.CreateController(second);
  }

  // ---------------------------------------------------------------------------
  // Properties of the controllers

  /** Supplied keys override the defaults; keys not supplied keep them. */
  lemma FirstControllerOptions(supplied: map<string, Value>)
    ensures var merged := Assign(DefaultOptions, supplied);
      && Get(merged, "newPositionEventName") ==
           (if "newPositionEventName" in supplied then supplied["newPositionEventName"] else Str("newPosition"))
      && Get(merged, "onNewPosition") ==
           (if "onNewPosition" in supplied then supplied["onNewPosition"] else Function(NoOp))
  {
  }

  /** Merges accumulate: a key from an earlier merge survives any later merge that does not name it. */
  lemma LaterMergeKeepsEarlierKeys(defaults: map<string, Value>, first: map<string, Value>, second: map<string, Value>, k: string)
    requires k in first && k !in second
    ensures Get(Assign(Assign(defaults, first), second), k) == first[k]
  {
  }

  /** A left hand (anything but "right") causes no emit, no callback and no error. */
  lemma OnlyRightHandsAct(variant: Variant, options: map<string, Value>, hand: Hand, atan: real -> real)
    requires hand.handType != "right"
    ensures HandOutcome(variant, options, hand, atan) == Outcome([], None)
  {
  }

  /** A banked right hand: the same position is emitted first and then given to the callback. */
  lemma EmitBeforeCallback(options: map<string, Value>, hand: Hand, atan: real -> real)
    requires hand.handType == "right"
    ensures var outcome := HandOutcome(Banked, options, hand, atan);
      && |outcome.effects| >= 1
      && outcome.effects[0] == Emitted(Get(options, "newPositionEventName"), BankedPosition(hand, atan))
      && (Get(options, "onNewPosition").Function? <==> outcome.failure.None?)
      && (outcome.failure.None? ==>
            outcome.effects == outcome.effects[..1] + [Called(Get(options, "onNewPosition").callback, outcome.effects[0].position)])
      && (outcome.failure.Some? ==> |outcome.effects| == 1)
  {
  }

  /** The banked position is roll, pitch and yaw from the hand geometry, yaw being 0. */
  lemma BankedPositionFromHelpers(hand: Hand, atan: real -> real)
    ensures var p := BankedPosition(hand, atan);
      p.roll == Roll(hand, atan) && p.pitch == Pitch(hand, atan) && p.yaw == 0.0
  {
  }

  /** A translational controller fails on every right hand before any effect. */
  lemma TranslationalRightHandFails(options: map<string, Value>, hand: Hand, atan: real -> real)
    requires hand.handType == "right"
    ensures HandOutcome(Translational, options, hand, atan) == Outcome([], Some(NoCalculateNewPosition))
  {
  }
}
