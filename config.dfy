/** The process-wide switch `Config.enable_backprop` and the scoped override
    `using_config` / `no_grad` (steps/step19.py lines 5-23). */
module Configuration {
  import opened Base

  /** The one configuration object; `enable_backprop` starts out true. */
  class Config {
    var enableBackprop: bool

    constructor()
      ensures enableBackprop
    {
      enableBackprop := true;
    }
  }

  /** The only attribute `Config` defines. */
  const EnableBackprop: string := "enable_backprop"

  /** `with using_config(name, value): <block>`. The block is given as the
      outcome it produces when run with the flag at `value`: it either
      finishes or raises. Every name other than `enable_backprop` is treated
      as missing: `getattr` raises `AttributeError` before anything is set. Otherwise the flag is
      set for the block and the old value is put back in the `finally`
      clause, so the flag is restored whether the block raised or not, and
      the block's exception, if any, propagates. */
  method UsingConfig(config: Config, name: string, value: bool, block: bool -> Outcome) returns (r: Outcome)
    modifies config
    ensures config.enableBackprop == old(config.enableBackprop)
    ensures name == EnableBackprop ==> r == block(value)
    ensures name != EnableBackprop ==> r == Fail(AttributeError)
  {
    if name != EnableBackprop {
      return Fail(AttributeError);
    }
    var oldValue := config.enableBackprop;
    config.enableBackprop := value;
    r := block(config.enableBackprop);
    config.enableBackprop := oldValue;
  }

  /** `with no_grad(): <block>` runs the block with recording switched off
      and restores the flag afterwards. */
  method NoGrad(config: Config, block: bool -> Outcome) returns (r: Outcome)
    modifies config
    ensures config.enableBackprop == old(config.enableBackprop)
    ensures r == block(false)
  {
    r := UsingConfig(config, EnableBackprop, false, block);
  }
}
