/** The state the Wynd swap component keeps while a proposal is drafted or
    displayed: the two amounts, which side is being simulated, the two
    "first change seen" flags, the stored route and its form errors. Each
    effect of the component is one method; what it does to the state is
    given by a function so that whole sequences of effects can be reasoned
    about. */
module WyndSwapForm {
  import opened Cosmos
  import opened WyndSwapAction

  datatype Side = TokenInSide | TokenOutSide

  /** The part of the component's state the simulation effects touch. */
  datatype SimState = SimState(
    tokenInAmount: real,
    tokenOutAmount: real,
    simulating: Option<Side>,
    tokenInSet: bool,
    tokenOutSet: bool)

  /** The executed-transaction loadable is still loading, or holds a
      transaction: either way nothing is simulated. */
  predicate ExecutionPendingOrDone<T>(tx: Loadable<Option<T>>)
  {
    tx.Loading? || (tx.HasValue? && tx.contents.Some?)
  }

  /** The effect that runs when the input amount or token changes. The first
      run only marks the input as set; a zero input forces the output to zero
      and stops simulating; a change made by simulating the input does not
      simulate again, any other change asks for the output to be simulated. */
  function AfterTokenInEffect(s: SimState, executed: bool): SimState
  {
    if executed then s
    else if !s.tokenInSet then s.(tokenInSet := true)
    else if s.tokenInAmount == 0.0 then s.(tokenOutAmount := 0.0, simulating := None)
    else s.(simulating := if s.simulating == Some(TokenInSide) then None else Some(TokenOutSide))
  }

  /** The mirror image, run when the output amount or token changes. */
  function AfterTokenOutEffect(s: SimState, executed: bool): SimState
  {
    if executed then s
    else if !s.tokenOutSet then s.(tokenOutSet := true)
    else if s.tokenOutAmount == 0.0 then s.(tokenInAmount := 0.0, simulating := None)
    else s.(simulating := if s.simulating == Some(TokenOutSide) then None else Some(TokenInSide))
  }

  /** The simulation query of the side being simulated, as the effect sees
      it. `SimDone(None)` is the query that was not issued (commission or
      route not loaded yet). */
  datatype Simulation = SimLoading | SimUpdating | SimFailed | SimDone(microAmount: Option<real>)

  /** The effect that writes a finished simulation into the simulated side. */
  function AfterSimulation(s: SimState, executed: bool, sim: Simulation, inDecimals: nat, outDecimals: nat): SimState
  {
    if executed then s.(simulating := None)
    else match s.simulating
      case None => s
      case Some(side) =>
        match sim
        case SimLoading => s
        case SimUpdating => s
        case SimFailed => s.(simulating := None)
        case SimDone(None) => s
        case SimDone(Some(micro)) =>
          if side == TokenInSide then s.(tokenInAmount := FromMicro(micro, inDecimals))
          else s.(tokenOutAmount := FromMicro(micro, outDecimals))
  }

  /** The effect that runs for the side a write changed. */
  function AfterSideEffect(side: Side, s: SimState, executed: bool): SimState
  {
    if side == TokenInSide then AfterTokenInEffect(s, executed) else AfterTokenOutEffect(s, executed)
  }

  /** Both first-change guards have fired. */
  predicate Settled(s: SimState)
  {
    s.tokenInSet && s.tokenOutSet
  }

  /** The first change on each side only marks that side as set: no amount
      changes and no simulation starts. */
  lemma FirstChangeOnlyMarks(s: SimState)
    ensures !s.tokenInSet ==>
      AfterTokenInEffect(s, false) == s.(tokenInSet := true)
    ensures !s.tokenOutSet ==>
      AfterTokenOutEffect(s, false) == s.(tokenOutSet := true)
  {
  }

  /** A user's non-zero edit of one side, with nothing being simulated, asks
      for the other side to be simulated. */
  lemma EditSimulatesOtherSide(s: SimState, side: Side)
    requires Settled(s) && s.simulating.None?
    requires side == TokenInSide ==> s.tokenInAmount != 0.0
    requires side == TokenOutSide ==> s.tokenOutAmount != 0.0
    ensures AfterSideEffect(side, s, false).simulating ==
      Some(if side == TokenInSide then TokenOutSide else TokenInSide)
  {
  }

  /** The write a simulation makes does not start another simulation: once
      the simulated side's own effect has run, nothing is being simulated. */
  lemma NoSimulationLoop(s: SimState, side: Side, micro: real, inDecimals: nat, outDecimals: nat)
    requires Settled(s) && s.simulating == Some(side)
    ensures var written := AfterSimulation(s, false, SimDone(Some(micro)), inDecimals, outDecimals);
      AfterSideEffect(side, written, false).simulating.None?
  {
  }

  /** A zero on either side settles both sides at zero with no simulation
      pending, once the effect for the forced side has run too. */
  lemma ZeroSettles(s: SimState, side: Side)
    requires Settled(s)
    requires side == TokenInSide ==> s.tokenInAmount == 0.0
    requires side == TokenOutSide ==> s.tokenOutAmount == 0.0
    ensures var other := if side == TokenInSide then TokenOutSide else TokenInSide;
      var t := AfterSideEffect(other, AfterSideEffect(side, s, false), false);
      t.tokenInAmount == 0.0 && t.tokenOutAmount == 0.0 && t.simulating.None?
  {
  }

  /** Once the proposal is executed (or its transaction is loading) the
      amount effects change nothing and the simulation effect clears the
      simulated side. */
  lemma ExecutedFreezes(s: SimState, sim: Simulation, inDecimals: nat, outDecimals: nat)
    ensures AfterTokenInEffect(s, true) == s && AfterTokenOutEffect(s, true) == s
    ensures AfterSimulation(s, true, sim, inDecimals, outDecimals) == s.(simulating := None)
  {
  }

  /** A failed simulation stops simulating and keeps both amounts. */
  lemma FailedSimulationStops(s: SimState, inDecimals: nat, outDecimals: nat)
    requires s.simulating.Some?
    ensures var t := AfterSimulation(s, false, SimFailed, inDecimals, outDecimals);
      t.simulating.None? && t.tokenInAmount == s.tokenInAmount && t.tokenOutAmount == s.tokenOutAmount
  {
  }

  /** Error keys the route effect sets on the form. */
  const RouteLoadingError: string := "swapOperations_loading"
  const InvalidRouteError: string := "swapOperations"

  class SwapForm {
    var tokenInAmount: real
    var tokenOutAmount: real
    var simulating: Option<Side>
    var tokenInSet: bool
    var tokenOutSet: bool
    var swapOperations: Option<seq<SwapOperation>>
    var errors: set<string>

    function State(): SimState
      reads this
    {
      SimState(tokenInAmount, tokenOutAmount, simulating, tokenInSet, tokenOutSet)
    }

    /** A freshly mounted component: the output is the side to simulate and
        neither side has been seen changing yet. */
    constructor (tokenInAmount: real, tokenOutAmount: real)
      ensures State() == SimState(tokenInAmount, tokenOutAmount, Some(TokenOutSide), false, false)
      ensures swapOperations.None? && errors == {}
    {
      this.tokenInAmount := tokenInAmount;
      this.tokenOutAmount := tokenOutAmount;
      simulating := Some(TokenOutSide);
      tokenInSet := false;
      tokenOutSet := false;
      swapOperations := None;
      errors := {};
    }

    /** A form write of the input amount (by the user or by a simulation). */
    method SetTokenInAmount(amount: real)
      modifies this
      ensures State() == old(State()).(tokenInAmount := amount)
      ensures swapOperations == old(swapOperations) && errors == old(errors)
    {
      tokenInAmount := amount;
    }

    /** A form write of the output amount. */
    method SetTokenOutAmount(amount: real)
      modifies this
      ensures State() == old(State()).(tokenOutAmount := amount)
      ensures swapOperations == old(swapOperations) && errors == old(errors)
    {
      tokenOutAmount := amount;
    }

    method TokenInEffect(executed: bool)
      modifies this
      ensures State() == AfterTokenInEffect(old(State()), executed)
      ensures swapOperations == old(swapOperations) && errors == old(errors)
    {
      if executed {
        return;
      }
      if !tokenInSet {
        tokenInSet := true;
      } else {
        if tokenInAmount == 0.0 {
          tokenOutAmount := 0.0;
          simulating := None;
          return;
        }
        simulating := if simulating == Some(TokenInSide) then None else Some(TokenOutSide);
      }
    }

    method TokenOutEffect(executed: bool)
      modifies this
      ensures State() == AfterTokenOutEffect(old(State()), executed)
      ensures swapOperations == old(swapOperations) && errors == old(errors)
    {
      if executed {
        return;
      }
      if !tokenOutSet {
        tokenOutSet := true;
      } else {
        if tokenOutAmount == 0.0 {
          tokenInAmount := 0.0;
          simulating := None;
          return;
        }
        simulating := if simulating == Some(TokenOutSide) then None else Some(TokenInSide);
      }
    }

    method SimulationEffect(executed: bool, sim: Simulation, inDecimals: nat, outDecimals: nat)
      modifies this
      ensures State() == AfterSimulation(old(State()), executed, sim, inDecimals, outDecimals)
      ensures swapOperations == old(swapOperations) && errors == old(errors)
    {
      if executed {
        simulating := None;
        return;
      }
      if simulating.Some? && !sim.SimLoading? && !sim.SimUpdating? {
        if sim.SimFailed? {
          simulating := None;
        } else if sim.microAmount.Some? {
          if simulating == Some(TokenInSide) {
            SetTokenInAmount(FromMicro(sim.microAmount.value, inDecimals));
          } else {
            SetTokenOutAmount(FromMicro(sim.microAmount.value, outDecimals));
          }
        }
      }
    }

    /** The route effect: a route that has not loaded marks the form as
        waiting; a loaded one is stored, and while drafting it is flagged
        invalid exactly when it does not fit the chosen tokens. */
    method RouteEffect(isCreating: bool, route: Loadable<Option<seq<SwapOperation>>>, tokenIn: GenericToken, tokenOut: GenericToken)
      modifies this
      ensures State() == old(State())
      ensures !route.HasValue? ==>
        errors == old(errors) + {RouteLoadingError} && swapOperations == old(swapOperations)
      ensures route.HasValue? ==> swapOperations == route.contents && RouteLoadingError !in errors
      ensures route.HasValue? && isCreating ==>
        (InvalidRouteError in errors <==> !ValidRoute(route.contents, tokenIn, tokenOut))
      ensures route.HasValue? ==>
        errors - {RouteLoadingError, InvalidRouteError} == old(errors) - {RouteLoadingError, InvalidRouteError}
      ensures route.HasValue? && !isCreating ==>
        (InvalidRouteError in errors <==> InvalidRouteError in old(errors))
    {
      if !route.HasValue? {
        errors := errors + {RouteLoadingError};
        return;
      }
      errors := errors - {RouteLoadingError};
      swapOperations := route.contents;
      if isCreating {
        if !ValidRoute(swapOperations, tokenIn, tokenOut) {
          errors := errors + {InvalidRouteError};
        } else {
          errors := errors - {InvalidRouteError};
        }
      }
    }

    /** The executed-amount effect: only for a displayed (not drafted)
        proposal whose transaction has loaded, and only when the amount can
        be located. */
    method ExecutedAmountEffect(isCreating: bool, tx: Loadable<Option<seq<Event>>>, actions: seq<ActionEntry>, index: nat, tokenOut: GenericToken)
      requires index < |actions|
      modifies this
      ensures tokenOutAmount ==
        if !isCreating && tx.HasValue? && tx.contents.Some?
           && ExecutedOutAmount(actions, index, tx.contents.value, tokenOut).Some?
        then ExecutedOutAmount(actions, index, tx.contents.value, tokenOut).value
        else old(tokenOutAmount)
      ensures State() == old(State()).(tokenOutAmount := tokenOutAmount)
      ensures swapOperations == old(swapOperations) && errors == old(errors)
    {
      if isCreating || !tx.HasValue? || tx.contents.None? {
        return;
      }
      var amount := ExecutedOutAmount(actions, index, tx.contents.value, tokenOut);
      if amount.Some? {
        SetTokenOutAmount(amount.value);
      }
    }
  }

  /** A drafting session: mount, the two initial effects, a user edit of the
      input, the output simulation and the effect its write triggers. The
      output ends up simulated and nothing is left pending. */
  method DraftingSession(initialIn: real, initialOut: real, edit: real, micro: real, inDecimals: nat, outDecimals: nat)
    returns (finalOut: real, pending: Option<Side>)
    requires edit != 0.0 && micro != 0.0
    ensures finalOut == FromMicro(micro, outDecimals)
    ensures pending.None?
  {
    var form := new SwapForm(initialIn, initialOut);
    form.TokenInEffect(false);
    form.TokenOutEffect(false);
    assert Settled(form.State()) && form.simulating == Some(TokenOutSide);
    form.SetTokenInAmount(edit);
    form.TokenInEffect(false);
    assert form.simulating == Some(TokenOutSide);
    form.SimulationEffect(false, SimDone(Some(micro)), inDecimals, outDecimals);
    assert form.tokenOutAmount == FromMicro(micro, outDecimals);
    assert form.tokenOutAmount != 0.0;
    form.TokenOutEffect(false);
    finalOut, pending := form.tokenOutAmount, form.simulating;
  }
}
