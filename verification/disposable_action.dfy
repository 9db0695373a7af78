/** DisposableAction: an IDisposable that runs a stored action the first
    time it is disposed, optionally after running a "construct" action. */
module Disposables {
  import opened Wrappers

  /** A delegate. What it does when invoked is outside the model; invoking
      it appends it to the shared Effects log. */
  datatype Action = Action(id: nat)

  /** The exception the constructors throw, naming the null parameter. */
  datatype ArgumentNullException = ArgumentNullException(paramName: string)

  /** The log of delegate invocations, in order. */
  class Effects {
    var invoked: seq<Action>

    constructor ()
      ensures invoked == []
    {
      invoked := [];
    }

    /** Runs `action`. */
    method Invoke(action: Action)
      modifies this
      ensures invoked == old(invoked) + [action]
    {
      invoked := invoked + [action];
    }
  }

  /** Outcome of `new DisposableAction(...)`: the instance, or the exception. */
  datatype Construction = Constructed(instance: DisposableAction) | Threw(exception: ArgumentNullException)

  class DisposableAction {
    /** The stored dispose action; None once it has run. */
    var dispose: Option<Action>
    /** Where the delegates' invocations are logged. */
    const effects: Effects

    /** Stores a non-null dispose action; the argument checks are made by
        the two factory methods below, which stand for the public
        constructors. */
    constructor Store(dispose: Action, effects: Effects)
      ensures this.dispose == Some(dispose) && this.effects == effects
    {
      this.dispose := Some(dispose);
      this.effects := effects;
    }

    /** `new DisposableAction(dispose)`: throws ArgumentNullException for a
        null action and otherwise stores it; runs nothing. */
    static method New(dispose: Option<Action>, effects: Effects) returns (r: Construction)
      ensures dispose.None? <==> r.Threw?
      ensures r.Threw? ==> r.exception == ArgumentNullException("dispose")
      ensures r.Constructed? ==> fresh(r.instance) && r.instance.dispose == dispose && r.instance.effects == effects
    {
      if dispose.None? {
        return Threw(ArgumentNullException("dispose"));
      }
      var instance := new DisposableAction.Store(dispose.value, effects);
      return Constructed(instance);
    }

    /** `new DisposableAction(construct, dispose)`: both arguments are
        checked, construct first, before anything runs; then `construct`
        runs exactly once and `dispose` is stored. */
    static method NewWithConstruct(construct: Option<Action>, dispose: Option<Action>, effects: Effects)
      returns (r: Construction)
      modifies effects
      ensures construct.None? ==> r == Threw(ArgumentNullException("construct"))
      ensures construct.Some? && dispose.None? ==> r == Threw(ArgumentNullException("dispose"))
      ensures r.Threw? ==> effects.invoked == old(effects.invoked)
      ensures r.Constructed? <==> construct.Some? && dispose.Some?
      ensures r.Constructed? ==>
        && fresh(r.instance) && r.instance.dispose == dispose && r.instance.effects == effects
        && effects.invoked == old(effects.invoked) + [construct.value]
    {
      if construct.None? {
        return Threw(ArgumentNullException("construct"));
      }
      if dispose.None? {
        return Threw(ArgumentNullException("dispose"));
      }
      effects.Invoke(construct.value);
      var instance := new DisposableAction.Store(dispose.value, effects);
      return Constructed(instance);
    }

    /** Dispose(): disposes with `disposing` true. */
    method Dispose()
      modifies this, effects
      ensures dispose == None
      ensures old(dispose).Some? ==> effects.invoked == old(effects.invoked) + [old(dispose).value]
      ensures old(dispose).None? ==> effects.invoked == old(effects.invoked)
    {
      DisposeCore(true);
    }

    /** Dispose(bool): when disposing and an action is still stored, runs
        it once and clears it; otherwise does nothing. */
    method DisposeCore(disposing: bool)
      modifies this, effects
      ensures !disposing || old(dispose).None? ==> dispose == old(dispose) && effects.invoked == old(effects.invoked)
      ensures disposing && old(dispose).Some? ==>
        dispose == None && effects.invoked == old(effects.invoked) + [old(dispose).value]
    {
      if disposing {
        if dispose.None? {
          return;
        }
        effects.Invoke(dispose.value);
        dispose := None;
      }
    }
  }

  /** However many times a DisposableAction is disposed, its action runs
      once: here, twice in a row. */
  method DisposeTwice(d: DisposableAction)
    modifies d, d.effects
    ensures old(d.dispose).Some? ==> d.effects.invoked == old(d.effects.invoked) + [old(d.dispose).value]
    ensures old(d.dispose).None? ==> d.effects.invoked == old(d.effects.invoked)
  {
    d.Dispose();
    d.Dispose();
  }

  /** The pattern `using (new DisposableAction(construct, dispose)) { … }`:
      construct runs on entry and dispose once on exit. */
  method UsingBlock(construct: Action, dispose: Action, effects: Effects)
    modifies effects
    ensures effects.invoked == old(effects.invoked) + [construct, dispose]
  {
    var r := DisposableAction.NewWithConstruct(Some(construct), Some(dispose), effects);
    r.instance.Dispose();
  }
}
