/** The member card of a DAO whose voting power is native tokens staked with
    its voting module: the loading guard, the balances and voting power it
    shows, the list of unstaking tasks, the unstaking duration, and the
    claim button with its loading flag. */
module MemberInfo {
  import opened Cosmos

  /** A JavaScript number that results from dividing non-negative reals. */
  datatype JsReal = Real(value: real) | Infinity | NotANumber

  /** `x / y` in JavaScript, for `x, y >= 0`. */
  function Divide(x: real, y: real): (r: JsReal)
    requires x >= 0.0 && y >= 0.0
    ensures y > 0.0 ==> r.Real? && r.value * y == x
    ensures y == 0.0 ==> (r == Infinity <==> x > 0.0) && (r == NotANumber <==> x == 0.0)
  {
    if y > 0.0 then Real(x / y)
    else if x > 0.0 then Infinity
    else NotANumber
  }

  function Times(r: JsReal, k: real): JsReal
    requires k > 0.0
  {
    match r
    case Real(v) => Real(v * k)
    case _ => r
  }

  /** What the card shows from the three loading values, converted out of
      micro-units. */
  datatype CardValues = CardValues(
    stakedTokens: LoadingData<real>,
    unstakedTokens: LoadingData<real>,
    votingPowerPercent: LoadingData<JsReal>)

  datatype Rendered = RenderThrows(error: string) | Rendered(values: CardValues)

  /** The render: it throws when any of the three loading values is missing;
      otherwise each is shown once loaded, and the voting power once both
      stake values are. The stake ratio is not guarded against an empty
      total. */
  function Render(
    unstakedBalance: Option<LoadingData<real>>,
    walletStaked: Option<LoadingData<real>>,
    totalStaked: Option<LoadingData<real>>,
    decimals: nat): (r: Rendered)
    requires walletStaked.Some? && walletStaked.value.Loaded? ==> walletStaked.value.data >= 0.0
    requires totalStaked.Some? && totalStaked.value.Loaded? ==> totalStaked.value.data >= 0.0
    ensures r.RenderThrows? <==> unstakedBalance.None? || walletStaked.None? || totalStaked.None?
    ensures r.RenderThrows? ==> r.error == "error.loadingData"
    ensures r.Rendered? ==>
      (r.values.stakedTokens.Loaded? <==> walletStaked.value.Loaded?)
      && (r.values.unstakedTokens.Loaded? <==> unstakedBalance.value.Loaded?)
      && (r.values.votingPowerPercent.Loaded? <==> walletStaked.value.Loaded? && totalStaked.value.Loaded?)
    ensures r.Rendered? && r.values.stakedTokens.Loaded? ==>
      ToMicro(r.values.stakedTokens.data, decimals) == walletStaked.value.data
    ensures r.Rendered? && r.values.unstakedTokens.Loaded? ==>
      ToMicro(r.values.unstakedTokens.data, decimals) == unstakedBalance.value.data
    ensures r.Rendered? && r.values.votingPowerPercent.Loaded? && totalStaked.value.data > 0.0 ==>
      r.values.votingPowerPercent.data.Real?
      && r.values.votingPowerPercent.data.value * totalStaked.value.data == 100.0 * walletStaked.value.data
  {
    if unstakedBalance.None? || walletStaked.None? || totalStaked.None? then RenderThrows("error.loadingData")
    else
      var staked := walletStaked.value;
      var total := totalStaked.value;
      var unstaked := unstakedBalance.value;
      Rendered(CardValues(
        if staked.IsLoading? then IsLoading else Loaded(FromMicro(staked.data, decimals)),
        if unstaked.IsLoading? then IsLoading else Loaded(FromMicro(unstaked.data, decimals)),
        if staked.IsLoading? || total.IsLoading? then IsLoading
        else Loaded(Times(Divide(staked.data, total.data), 100.0))))
  }

  /** With nothing staked in the DAO at all the voting power shown is not a
      number, and with stake but an empty total it is infinite. */
  lemma EmptyTotalIsNotAPercentage(unstakedBalance: LoadingData<real>, wallet: real, decimals: nat)
    requires wallet >= 0.0
    ensures var r := Render(Some(unstakedBalance), Some(Loaded(wallet)), Some(Loaded(0.0)), decimals);
      r.Rendered? && r.values.votingPowerPercent == Loaded(if wallet == 0.0 then NotANumber else Infinity)
  {
  }

  /** A claim of the voting module: a micro-amount and when it is released. */
  datatype Claim = Claim(amount: real, releaseAt: Expiration)

  datatype TaskStatus = Unstaking | ReadyToClaim

  /** An unstaking task: its status, amount shown and release date (as the
      date conversion gives it). */
  datatype UnstakingTask = UnstakingTask(status: TaskStatus, amount: real, date: Option<string>)

  function TaskOf(status: TaskStatus, c: Claim, decimals: nat, height: nat,
                  toDate: (Expiration, nat) -> Option<string>): UnstakingTask
  {
    UnstakingTask(status, FromMicro(c.amount, decimals), toDate(c.releaseAt, height))
  }

  /** One group of tasks: every claim of the list, in order, with the
      status. */
  function Tasks(status: TaskStatus, claims: seq<Claim>, decimals: nat, height: nat,
                 toDate: (Expiration, nat) -> Option<string>): (r: seq<UnstakingTask>)
    ensures |r| == |claims|
    ensures forall i :: 0 <= i < |claims| ==> r[i] == TaskOf(status, claims[i], decimals, height, toDate)
  {
    if claims == [] then []
    else [TaskOf(status, claims[0], decimals, height, toDate)] + Tasks(status, claims[1..], decimals, height, toDate)
  }

  /** `claims ?? []`. */
  function OrEmpty(claims: Option<seq<Claim>>): seq<Claim>
  {
    if claims.Some? then claims.value else []
  }

  /** The block height the dates are computed at: 0 until it has loaded. */
  function HeightOrZero(blockHeight: Loadable<nat>): nat
  {
    if blockHeight.HasValue? then blockHeight.contents else 0
  }

  /** `unstakingTasks`: the pending claims as Unstaking tasks, then the
      available ones as ReadyToClaim tasks; a list not loaded counts as
      empty. */
  function UnstakingTasks(pending: Option<seq<Claim>>, available: Option<seq<Claim>>, decimals: nat,
                          blockHeight: Loadable<nat>, toDate: (Expiration, nat) -> Option<string>): (r: seq<UnstakingTask>)
    ensures |r| == |OrEmpty(pending)| + |OrEmpty(available)|
    ensures r[..|OrEmpty(pending)|] == Tasks(Unstaking, OrEmpty(pending), decimals, HeightOrZero(blockHeight), toDate)
    ensures r[|OrEmpty(pending)|..] == Tasks(ReadyToClaim, OrEmpty(available), decimals, HeightOrZero(blockHeight), toDate)
  {
    var height := HeightOrZero(blockHeight);
    var unstaking := Tasks(Unstaking, OrEmpty(pending), decimals, height, toDate);
    var ready := Tasks(ReadyToClaim, OrEmpty(available), decimals, height, toDate);
    assert (unstaking + ready)[..|unstaking|] == unstaking;
    assert (unstaking + ready)[|unstaking|..] == ready;
    unstaking + ready
  }

  /** The tasks of one status, in order. */
  function WithStatus(tasks: seq<UnstakingTask>, status: TaskStatus): (r: seq<UnstakingTask>)
    ensures |r| <= |tasks|
  {
    if tasks == [] then []
    else if tasks[0].status == status then [tasks[0]] + WithStatus(tasks[1..], status)
    else WithStatus(tasks[1..], status)
  }

  lemma {:induction false} WithStatusAppend(a: seq<UnstakingTask>, b: seq<UnstakingTask>, status: TaskStatus)
    ensures WithStatus(a + b, status) == WithStatus(a, status) + WithStatus(b, status)
  {
    if a == [] {
      assert a + b == b;
    } else {
      assert (a + b)[1..] == a[1..] + b;
      WithStatusAppend(a[1..], b, status);
    }
  }

  lemma {:induction false} WithStatusOfGroup(status: TaskStatus, other: TaskStatus, claims: seq<Claim>, decimals: nat,
                                            height: nat, toDate: (Expiration, nat) -> Option<string>)
    ensures WithStatus(Tasks(status, claims, decimals, height, toDate), status) == Tasks(status, claims, decimals, height, toDate)
    ensures other != status ==> WithStatus(Tasks(status, claims, decimals, height, toDate), other) == []
  {
    if claims != [] {
      WithStatusOfGroup(status, other, claims[1..], decimals, height, toDate);
    }
  }

  /** Separating the tasks by status gives back each group whole and in
      order: the pending claims are exactly the Unstaking tasks, the
      available claims exactly the ReadyToClaim ones. */
  lemma GroupsRecovered(pending: Option<seq<Claim>>, available: Option<seq<Claim>>, decimals: nat,
                        blockHeight: Loadable<nat>, toDate: (Expiration, nat) -> Option<string>)
    ensures var tasks := UnstakingTasks(pending, available, decimals, blockHeight, toDate);
      var height := HeightOrZero(blockHeight);
      WithStatus(tasks, Unstaking) == Tasks(Unstaking, OrEmpty(pending), decimals, height, toDate)
      && WithStatus(tasks, ReadyToClaim) == Tasks(ReadyToClaim, OrEmpty(available), decimals, height, toDate)
  {
    var height := HeightOrZero(blockHeight);
    var p := Tasks(Unstaking, OrEmpty(pending), decimals, height, toDate);
    var a := Tasks(ReadyToClaim, OrEmpty(available), decimals, height, toDate);
    WithStatusAppend(p, a, Unstaking);
    WithStatusAppend(p, a, ReadyToClaim);
    WithStatusOfGroup(Unstaking, ReadyToClaim, OrEmpty(pending), decimals, height, toDate);
    WithStatusOfGroup(ReadyToClaim, Unstaking, OrEmpty(available), decimals, height, toDate);
  }

  /** `(unstakingDuration && durationToSeconds(…)) || undefined`, with the
      conversion to seconds a parameter. */
  function UnstakingDurationSeconds<Duration>(duration: Option<Duration>, toSeconds: Duration -> nat): (r: Option<nat>)
    ensures r.None? <==> duration.None? || toSeconds(duration.value) == 0
    ensures r.Some? ==> r.value == toSeconds(duration.value) && r.value > 0
  {
    match duration
    case None => None
    case Some(d) => if toSeconds(d) == 0 then None else Some(toSeconds(d))
  }

  datatype Toast = ErrorToast(message: string) | ClaimedToast(amount: real, symbol: string)

  class ClaimButton {
    var claimingLoading: bool
    var toasts: seq<Toast>
    /** Claims sent to the voting module. */
    var claimsSent: nat
    /** Refreshes of balances, totals and claims after a claim. */
    var refreshes: nat
    /** Every value passed to `setClaimingLoading`, in order. */
    ghost var loadingWrites: seq<bool>

    constructor ()
      ensures !claimingLoading && toasts == [] && claimsSent == 0 && refreshes == 0 && loadingWrites == []
    {
      claimingLoading := false;
      toasts := [];
      claimsSent := 0;
      refreshes := 0;
      loadingWrites := [];
    }

    /** `onClaim`. A disconnected wallet is refused first, then an empty or
        unknown sum of available claims; otherwise the claim is sent with
        the loading flag on, and the flag is off again whether the claim
        (and the wait for the next block) succeeded or failed. */
    method OnClaim(connected: bool, sumClaimsAvailable: Option<real>, claimError: Option<string>,
                   decimals: nat, symbol: string)
      modifies this
      ensures !connected ==>
        toasts == old(toasts) + [ErrorToast("error.connectWalletToContinue")]
        && claimsSent == old(claimsSent) && refreshes == old(refreshes)
        && claimingLoading == old(claimingLoading) && loadingWrites == old(loadingWrites)
      ensures connected && (sumClaimsAvailable.None? || sumClaimsAvailable.value == 0.0) ==>
        toasts == old(toasts) + [ErrorToast("error.noClaimsAvailable")]
        && claimsSent == old(claimsSent) && refreshes == old(refreshes)
        && claimingLoading == old(claimingLoading) && loadingWrites == old(loadingWrites)
      ensures connected && sumClaimsAvailable.Some? && sumClaimsAvailable.value != 0.0 ==>
        claimsSent == old(claimsSent) + 1
        && !claimingLoading && loadingWrites == old(loadingWrites) + [true, false]
        && (claimError.None? ==>
              refreshes == old(refreshes) + 1
              && toasts == old(toasts) + [ClaimedToast(FromMicro(sumClaimsAvailable.value, decimals), symbol)])
        && (claimError.Some? ==>
              refreshes == old(refreshes) && toasts == old(toasts) + [ErrorToast(claimError.value)])
    {
      if !connected {
        toasts := toasts + [ErrorToast("error.connectWalletToContinue")];
        return;
      }
      if sumClaimsAvailable.None? || sumClaimsAvailable.value == 0.0 {
        toasts := toasts + [ErrorToast("error.noClaimsAvailable")];
        return;
      }
      claimingLoading := true;
      loadingWrites := loadingWrites + [true];
      claimsSent := claimsSent + 1;
      match claimError {
        case None =>
          refreshes := refreshes + 1;
          toasts := toasts + [ClaimedToast(FromMicro(sumClaimsAvailable.value, decimals), symbol)];
        case Some(e) =>
          toasts := toasts + [ErrorToast(e)];
      }
      claimingLoading := false;
      loadingWrites := loadingWrites + [false];
    }
  }
}
