/**
 * The `leapdrone` tracking plugin. Its file carries its own copies of the
 * geometry helpers, of the controller classes and of a `defaultOptions` object;
 * the copies behave exactly like the ones modelled in `Helpers` and
 * `MotionHandler`, which are reused here. Only the plugin callback itself is new:
 * it picks the variant, builds one controller, and returns a `hand` hook that
 * forwards every tracked hand, with the tracking controller as sender.
 */
module LeapDrone {
  import opened Wrappers
  import opened Helpers
  import opened MotionHandler

  /** The object the plugin callback returns: its `hand` hook. */
  class PluginHooks {
    const leapDrone: MotionController

    constructor (leapDrone: MotionController)
      ensures this.leapDrone == leapDrone
    {
      this.leapDrone := leapDrone;
    }

    /** The `hand` hook: forwards the hand to `onHand`, with the tracking controller as sender. */
    method HandHook(hand: Hand, sender: EffectLog, atan: real -> real) returns (failure: Option<Failure>)
      modifies sender
      ensures var outcome := HandOutcome(leapDrone.variant, leapDrone.options.props, hand, atan);
        sender.effects == old(sender.effects) + outcome.effects && failure == outcome.failure
    {
      failure := leapDrone.OnHand(hand, sender, atan);
    }
  }

  /**
   * The plugin callback. `defaultOptions` is this file's own module-level
   * defaults object, which the controller's constructor merges into and keeps.
   */
  method Plugin(defaultOptions: OptionsObject, options: map<string, Value>) returns (hooks: PluginHooks)
    modifies defaultOptions
    ensures fresh(hooks) && fresh(hooks.leapDrone)
    ensures hooks.leapDrone.variant == SelectVariant(options)
    ensures hooks.leapDrone.options == defaultOptions
    ensures defaultOptions.props == Assign(old(defaultOptions.props), options)
  {
    var leapDrone: MotionController;
    if Truthy(Get(options, "bankedController")) {
      leapDrone := new MotionController(Banked, defaultOptions, options);
    } else {
      leapDrone := new MotionController(Translational, defaultOptions, options);
    }
    hooks := new PluginHooks(leapDrone);
  }
}
