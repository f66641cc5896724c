/**
 * src/MintButton.tsx: when the mint button is disabled, which label it shows, and
 * the human-verification handshake that turns a click into a gateway-token request
 * and fires `onMint` once the gateway reports ACTIVE.
 */
module MintButton {
  import opened Wrappers
  import opened CandyMachine

  /** The gateway states of the verification provider the component looks at, and the others. */
  datatype GatewayStatus =
    | Unknown | Checking | NotRequested | CollectingUserInformation | InReview
    | Rejected | Revoked | Frozen | Active | Error

  /** The component's props (`onMint` is the callback the handshake fires). */
  datatype Props = Props(
    candyMachine: Option<CandyState>,
    isMinting: bool,
    isActive: bool,
    isSoldOut: bool,
    wallet: bool,
    mintable: bool,
    tooManyTokens: bool)

  /** `candyMachine?.state.isSoldOut || isSoldOut`: undefined, and so falsy, without a machine. */
  predicate ShownSoldOut(p: Props)
  {
    (p.candyMachine.Some? && p.candyMachine.value.isSoldOut) || p.isSoldOut
  }

  /**
   * The `disabled` expression of the button: an enabled button has a connected
   * wallet and an active, unsold sale, and shows either the mint label or, with
   * no machine loaded yet, the connecting one.
   */
  predicate Disabled(p: Props, isVerifying: bool)
    ensures !Disabled(p, isVerifying) ==>
              p.wallet && p.isActive && !ShownSoldOut(p) && ButtonLabel(p, isVerifying) in {Connecting, MintHere}
  {
    ShownSoldOut(p) || p.isMinting || !p.isActive || isVerifying || !p.wallet || !p.mintable || p.tooManyTokens
  }

  /** What the button shows; `Countdown` is the cooldown timer, `Minting` carries a spinner. */
  datatype Label =
    | Connecting | SoldOut | Verifying | Minting | Countdown | MintLimited | MintHere | Soon | Unavailable

  /** The label cascade, first matching case wins. */
  function ButtonLabel(p: Props, isVerifying: bool): (l: Label)
    ensures l == Connecting <==> p.candyMachine.None?
    ensures l == SoldOut <==> p.candyMachine.Some? && ShownSoldOut(p)
    ensures l == Verifying <==> p.candyMachine.Some? && !ShownSoldOut(p) && p.isActive && isVerifying
    ensures l == Minting <==> p.candyMachine.Some? && !ShownSoldOut(p) && p.isActive && !isVerifying && p.isMinting
    ensures l == Countdown <==>
              p.candyMachine.Some? && !ShownSoldOut(p) && p.isActive && !isVerifying && !p.isMinting && !p.mintable
    ensures l == MintLimited <==>
              && p.candyMachine.Some? && !ShownSoldOut(p) && p.isActive && !isVerifying && !p.isMinting && p.mintable
              && p.tooManyTokens
    ensures l == MintHere <==>
              && p.candyMachine.Some? && !ShownSoldOut(p) && p.isActive && !isVerifying && !p.isMinting && p.mintable
              && !p.tooManyTokens
    ensures l == Soon <==> p.candyMachine.Some? && !ShownSoldOut(p) && !p.isActive && p.candyMachine.value.goLiveDate.Some?
    ensures l == Unavailable <==>
              p.candyMachine.Some? && !ShownSoldOut(p) && !p.isActive && p.candyMachine.value.goLiveDate.None?
  {
    if p.candyMachine.None? then Connecting
    else if ShownSoldOut(p) then SoldOut
    else if p.isActive then
      if isVerifying then Verifying
      else if p.isMinting then Minting
      else if !p.mintable then Countdown
      else if p.tooManyTokens then MintLimited
      else MintHere
    else if p.candyMachine.value.goLiveDate.Some? then Soon
    else Unavailable
  }

  /** The text of each label (the countdown renders the seconds left instead). */
  function LabelText(l: Label): string
  {
    match l
    case Connecting => "CONNECTING..."
    case SoldOut => "SOLD OUT"
    case Verifying => "VERIFYING..."
    case Minting => "Minting..."
    case Countdown => ""
    case MintLimited => "Mint limited."
    case MintHere => "MINT HERE"
    case Soon => "SOON"
    case Unavailable => "UNAVAILABLE"
  }

  /**
   * Once the machine is loaded, the button is enabled exactly when it reads
   * "MINT HERE" with a wallet connected.
   */
  lemma EnabledIffMintHere(p: Props, isVerifying: bool)
    requires p.candyMachine.Some?
    ensures !Disabled(p, isVerifying) <==> LabelText(ButtonLabel(p, isVerifying)) == "MINT HERE" && p.wallet
  {
  }

  /** Sold out takes precedence over every other label and always disables the button. */
  lemma SoldOutDominates(p: Props, isVerifying: bool)
    requires p.candyMachine.Some? && ShownSoldOut(p)
    ensures LabelText(ButtonLabel(p, isVerifying)) == "SOLD OUT" && Disabled(p, isVerifying)
  {
  }

  /** A label from the active branch is shown exactly when the machine is loaded, not sold out and active. */
  lemma ActiveLabels(p: Props, isVerifying: bool)
    ensures ButtonLabel(p, isVerifying) in {Verifying, Minting, Countdown, MintLimited, MintHere}
            <==> p.candyMachine.Some? && !ShownSoldOut(p) && p.isActive
  {
  }

  // ---------------------------------------------------------------------------
  // The gateway handshake
  // ---------------------------------------------------------------------------

  /** The component's own state: `clicked` and `isVerifying`. */
  datatype Handshake = Handshake(clicked: bool, isVerifying: bool)

  /** What a click does. */
  datatype ClickAction = RequestGatewayToken | CallOnMint

  /** `candyMachine?.state.gatekeeper`: undefined, and so falsy, without a machine. */
  predicate HasGatekeeper(p: Props)
  {
    p.candyMachine.Some? && p.candyMachine.value.hasGatekeeper
  }

  /** `onClick`: with an active sale, a gatekeeper and no ACTIVE gateway, ask for a token; otherwise mint. */
  function ClickStep(h: Handshake, p: Props, status: GatewayStatus): (r: (Handshake, ClickAction))
    ensures r.1 == RequestGatewayToken <==>
              p.isActive && p.candyMachine.Some? && p.candyMachine.value.hasGatekeeper && status != Active
    ensures r.1 == RequestGatewayToken ==> r.0 == h.(clicked := true)
    ensures r.1 == CallOnMint ==> r.0 == h
  {
    if p.isActive && HasGatekeeper(p) && status != Active then (h.(clicked := true), RequestGatewayToken)
    else (h, CallOnMint)
  }

  /**
   * One evaluation of the `useEffect`: `isVerifying` is reset, then set while the
   * provider collects user information after a click; on ACTIVE after a click,
   * `onMint` fires (the second component) and `clicked` is cleared.
   */
  function EffectStep(h: Handshake, status: GatewayStatus): (r: (Handshake, bool))
    ensures r.0.isVerifying <==> status == CollectingUserInformation && r.0.clicked
    ensures r.1 <==> status == Active && h.clicked
    ensures r.0.clicked <==> h.clicked && status != Active
  {
    if status == CollectingUserInformation && h.clicked then (Handshake(h.clicked, true), false)
    else if status == Active && h.clicked then (Handshake(false, false), true)
    else (Handshake(h.clicked, false), false)
  }

  /** Re-evaluating the effect while the gateway stays ACTIVE does not mint again. */
  lemma ActiveFiresOnce(h: Handshake)
    ensures var (h1, first) := EffectStep(h, Active);
            first == h.clicked && !EffectStep(h1, Active).1
  {
  }

  /** What the component sees: a click, or a re-evaluation of the effect under a gateway status. */
  datatype Event =
    | Click(props: Props, clickStatus: GatewayStatus)
    | Effect(status: GatewayStatus)

  /** The number of clicks among the events. */
  function Clicks(events: seq<Event>): nat
  {
    if events == [] then 0 else (if events[0].Click? then 1 else 0) + Clicks(events[1..])
  }

  /** The handshake after a run of events, and how many times `onMint` was called. */
  function Run(h: Handshake, events: seq<Event>): (Handshake, nat)
    decreases |events|
  {
    if events == [] then (h, 0)
    else
      var (h1, mints1) :=
        match events[0]
        case Click(props, status) =>
          var (h1, action) := ClickStep(h, props, status);
          (h1, if action == CallOnMint then 1 else 0)
        case Effect(status) =>
          var (h1, fired) := EffectStep(h, status);
          (h1, if fired then 1 else 0);
      var (h2, mints2) := Run(h1, events[1..]);
      (h2, mints1 + mints2)
  }

  /**
   * Every call of `onMint` is paid for by a click: a direct one, or the one that
   * set `clicked` and is consumed when the gateway turns ACTIVE.
   */
  lemma {:induction false} MintsBoundedByClicks(h: Handshake, events: seq<Event>)
    ensures var (h', mints) := Run(h, events);
            mints + (if h'.clicked then 1 else 0) <= Clicks(events) + (if h.clicked then 1 else 0)
    decreases |events|
  {
    if events != [] {
      match events[0]
      case Click(props, status) =>
        MintsBoundedByClicks(ClickStep(h, props, status).0, events[1..]);
      case Effect(status) =>
        MintsBoundedByClicks(EffectStep(h, status).0, events[1..]);
    }
  }

  /**
   * A handshake the user abandons stays pending: as long as the gateway never
   * becomes ACTIVE and no one clicks again, `clicked` remains set and nothing mints.
   */
  lemma {:induction false} AbandonedHandshakeStaysPending(h: Handshake, statuses: seq<GatewayStatus>)
    requires h.clicked && Active !in statuses
    ensures var (h', mints) := Run(h, EffectsOf(statuses));
            h'.clicked && mints == 0
    decreases |statuses|
  {
    if statuses != [] {
      assert EffectsOf(statuses)[1..] == EffectsOf(statuses[1..]);
      AbandonedHandshakeStaysPending(EffectStep(h, statuses[0]).0, statuses[1..]);
    }
  }

  /** The effect evaluations for a sequence of gateway statuses. */
  function EffectsOf(statuses: seq<GatewayStatus>): (r: seq<Event>)
    ensures |r| == |statuses| && forall i :: 0 <= i < |statuses| ==> r[i] == Effect(statuses[i])
  {
    seq(|statuses|, i requires 0 <= i < |statuses| => Effect(statuses[i]))
  }

  /** The handshake state of one mounted button. */
  class GatewayButton {
    var clicked: bool
    var isVerifying: bool

    function State(): Handshake
      reads this
    {
      Handshake(clicked, isVerifying)
    }

    /** `useState(false)` for both. */
    constructor ()
      ensures State() == Handshake(false, false)
    {
      clicked, isVerifying := false, false;
    }

    /** The `onClick` handler; `RequestGatewayToken` means `requestGatewayToken()` is awaited instead of `onMint()`. */
    method OnClick(p: Props, status: GatewayStatus) returns (action: ClickAction)
      modifies this
      ensures (State(), action) == ClickStep(old(State()), p, status)
    {
      if p.isActive && HasGatekeeper(p) && status != Active {
        clicked := true;
        action := RequestGatewayToken;
      } else {
        action := CallOnMint;
      }
    }

    /** One run of the effect; `mint` says whether it called `onMint()`. */
    method RunEffect(status: GatewayStatus) returns (mint: bool)
      modifies this
      ensures (State(), mint) == EffectStep(old(State()), status)
    {
      isVerifying := false;
      mint := false;
      if status == CollectingUserInformation && clicked {
        isVerifying := true;
      } else if status == Active && clicked {
        mint := true;
        clicked := false;
      }
    }
  }
}
