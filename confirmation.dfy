/**
 * The confirmation gate every form submits through. A form hands its
 * submission to `confirm`, which keeps it pending and opens a modal. The
 * modal runs the pending action only when the visitor has typed the secret
 * phrase (compared after lower-casing and trimming); cancelling discards it.
 * An action that completes shows the screaming monkey and reports success.
 *
 * The state of the hook and of the modal it renders is one value, and every
 * handler is one `Step` on it. Running an action is recorded by appending it
 * to `ran`; whether it throws is part of the event that runs it. The modal's
 * handlers only exist while it is open, so modal events on a closed modal
 * change nothing.
 */
module Confirmation {
  import opened Wrappers
  import Text

  const SECRET_PHRASE := "na capoeira"

  /** `input.toLowerCase().trim() === SECRET_PHRASE`. */
  predicate Accepts(input: string) {
    Text.Trim(Text.Lower(input)) == SECRET_PHRASE
  }

  /** `s[k..j]` is the phrase in any letter case, with only whitespace around it. */
  predicate PhraseBetween(s: string, k: int, j: int) {
    && 0 <= k <= j <= |s|
    && Text.AllSpace(s[..k]) && Text.AllSpace(s[j..])
    && Text.Lower(s[k..j]) == SECRET_PHRASE
  }

  /** Accepted inputs are exactly the phrase, in any letter case, surrounded by whitespace. */
  lemma AcceptsIff(s: string)
    ensures Accepts(s) <==> exists k, j :: PhraseBetween(s, k, j)
  {
    if Accepts(s) {
      AcceptedHasPhrase(s);
    }
    if exists k, j :: PhraseBetween(s, k, j) {
      var k, j :| PhraseBetween(s, k, j);
      PhraseAccepted(s, k, j);
    }
  }

  lemma AcceptedHasPhrase(s: string)
    requires Accepts(s)
    ensures PhraseBetween(s, Text.Lead(s), Text.Lead(s) + |Text.Trim(s)|)
  {
    Text.TrimParts(s);
    Text.TrimLowerCommute(s);
  }

  lemma PhraseAccepted(s: string, k: int, j: int)
    requires PhraseBetween(s, k, j)
    ensures Accepts(s)
  {
    var a, p, b := s[..k], s[k..j], s[j..];
    Text.SplitAround(s, k, j - k);
    assert Text.Lower(p)[0] == 'n' && Text.Lower(p)[|p| - 1] == 'a';
    Text.LowerCharKeepsSpace(p[0]);
    Text.LowerCharKeepsSpace(p[|p| - 1]);
    Text.TrimPadded(a, p, b);
    Text.TrimLowerCommute(s);
  }

  datatype GateState<A> = GateState(
    isModalOpen: bool,
    showMonkey: bool,
    pending: Option<A>,
    input: string,
    error: bool,
    shake: bool,
    ran: seq<A>,
    successes: nat)

  function Initial<A>(): GateState<A> {
    GateState(false, false, None, "", false, false, [], 0)
  }

  datatype GateEvent<A> =
    | Confirm(action: A)
    | Edit(text: string)
    | ConfirmClick(throws: bool)
    | CancelClick
    | BackdropClick
    | KeyDown(key: string, throws: bool)
    | ShakeTimeout
    | MonkeyComplete

  /** The hook's `handleConfirm`: close, run the pending action if any, forget it. */
  function HookConfirm<A>(st: GateState<A>, throws: bool): GateState<A> {
    var closed := st.(isModalOpen := false, pending := None);
    match st.pending
    case None => closed
    case Some(a) =>
      if throws then closed.(ran := st.ran + [a])
      else closed.(ran := st.ran + [a], showMonkey := true, successes := st.successes + 1)
  }

  /** The hook's `handleCancel`. */
  function HookCancel<A>(st: GateState<A>): GateState<A> {
    st.(isModalOpen := false, pending := None)
  }

  /** The modal's `handleConfirm`: check the phrase, then confirm or flag the error. */
  function ModalConfirmed<A>(st: GateState<A>, throws: bool): GateState<A> {
    if Accepts(st.input) then HookConfirm(st.(input := "", error := false), throws)
    else st.(error := true, shake := true)
  }

  /** The modal's `handleCancel`. */
  function ModalCancelled<A>(st: GateState<A>): GateState<A> {
    HookCancel(st.(input := "", error := false))
  }

  function Step<A>(st: GateState<A>, ev: GateEvent<A>): GateState<A> {
    match ev
    case Confirm(a) => st.(pending := Some(a), isModalOpen := true)
    case Edit(text) => if st.isModalOpen then st.(input := text, error := false) else st
    case ConfirmClick(throws) => if st.isModalOpen then ModalConfirmed(st, throws) else st
    case CancelClick => if st.isModalOpen then ModalCancelled(st) else st
    case BackdropClick => if st.isModalOpen then ModalCancelled(st) else st
    case KeyDown(key, throws) =>
      if !st.isModalOpen then st
      else if key == "Enter" then ModalConfirmed(st, throws)
      else if key == "Escape" then ModalCancelled(st)
      else st
    case ShakeTimeout => st.(shake := false)
    case MonkeyComplete => st.(showMonkey := false)
  }

  function Run<A>(st: GateState<A>, evs: seq<GateEvent<A>>): GateState<A>
    decreases |evs|
  {
    if evs == [] then st else Run(Step(st, evs[0]), evs[1..])
  }

  /** The modal is open exactly while an action waits for confirmation. */
  predicate Valid<A>(st: GateState<A>) {
    st.isModalOpen <==> st.pending.Some?
  }

  lemma StepKeepsValid<A>(st: GateState<A>, ev: GateEvent<A>)
    requires Valid(st)
    ensures Valid(Step(st, ev))
  {
  }

  lemma {:induction false} RunKeepsValid<A>(st: GateState<A>, evs: seq<GateEvent<A>>)
    requires Valid(st)
    ensures Valid(Run(st, evs))
    decreases |evs|
  {
    if evs != [] {
      StepKeepsValid(st, evs[0]);
      RunKeepsValid(Step(st, evs[0]), evs[1..]);
    }
  }

  /** `confirm` stores the action and opens the modal; nothing runs, an earlier pending action is replaced. */
  lemma ConfirmStoresAction<A>(st: GateState<A>, a: A)
    ensures Step(st, Confirm(a)).pending == Some(a) && Step(st, Confirm(a)).isModalOpen
    ensures Step(st, Confirm(a)).ran == st.ran && Step(st, Confirm(a)).successes == st.successes
  {
  }

  /**
   * An action is only ever run by a confirmation on the open modal with an
   * accepted input, and then it is the pending one, run once and forgotten.
   */
  lemma RunsOnlyWhenAccepted<A>(st: GateState<A>, ev: GateEvent<A>)
    ensures Step(st, ev).ran == st.ran || Step(st, ev).ran == st.ran + [st.pending.value]
    ensures Step(st, ev).ran != st.ran ==>
      && st.isModalOpen && Accepts(st.input) && st.pending.Some?
      && (ev.ConfirmClick? || (ev.KeyDown? && ev.key == "Enter"))
      && Step(st, ev).pending.None? && !Step(st, ev).isModalOpen
  {
    match ev
    case ConfirmClick(throws) =>
      if st.isModalOpen {
        ModalConfirmedRuns(st, throws);
      }
    case KeyDown(key, throws) =>
      if st.isModalOpen && key == "Enter" {
        ModalConfirmedRuns(st, throws);
      }
    case _ =>
  }

  /** The modal's confirm runs the pending action iff the input is accepted and one is pending. */
  lemma ModalConfirmedRuns<A>(st: GateState<A>, throws: bool)
    ensures var next := ModalConfirmed(st, throws);
      if Accepts(st.input) && st.pending.Some? then
        next.ran == st.ran + [st.pending.value] && next.pending.None? && !next.isModalOpen
      else next.ran == st.ran
  {
  }

  /** The accepted, pending action runs; the monkey shows and success is reported iff it does not throw. */
  lemma AcceptedRunsPending<A>(st: GateState<A>, a: A, throws: bool)
    requires st.isModalOpen && st.pending == Some(a) && Accepts(st.input)
    ensures var next := Step(st, ConfirmClick(throws));
      && next.ran == st.ran + [a]
      && next.pending.None? && !next.isModalOpen
      && next.input == [] && !next.error
      && next.showMonkey == (!throws || st.showMonkey)
      && next.successes == st.successes + (if throws then 0 else 1)
  {
  }

  /** A rejected phrase runs nothing, keeps the input and the pending action, and flags the error. */
  lemma RejectedKeepsWaiting<A>(st: GateState<A>, throws: bool)
    requires st.isModalOpen && !Accepts(st.input)
    ensures Step(st, ConfirmClick(throws)) == st.(error := true, shake := true)
  {
  }

  /** Cancelling clears the input and the error and discards the pending action unrun. */
  lemma CancelDiscards<A>(st: GateState<A>)
    requires st.isModalOpen
    ensures Step(st, CancelClick) == st.(input := [], error := false, isModalOpen := false, pending := None)
    ensures Step(st, BackdropClick) == Step(st, CancelClick)
  {
  }

  /** Enter confirms, Escape cancels, other keys do nothing. */
  lemma KeysAsClicks<A>(st: GateState<A>, key: string, throws: bool)
    ensures Step(st, KeyDown("Enter", throws)) == Step(st, ConfirmClick(throws))
    ensures Step(st, KeyDown("Escape", throws)) == Step(st, CancelClick)
    ensures key != "Enter" && key != "Escape" ==> Step(st, KeyDown(key, throws)) == st
  {
  }

  /** Any edit clears the error. */
  lemma EditClearsError<A>(st: GateState<A>, text: string)
    requires st.isModalOpen
    ensures Step(st, Edit(text)).input == text && !Step(st, Edit(text)).error
  {
  }

  /** `handleMonkeyComplete` hides the monkey and changes nothing else. */
  lemma MonkeyCompleteOnlyHides<A>(st: GateState<A>)
    ensures Step(st, MonkeyComplete) == st.(showMonkey := false)
  {
  }

  function Confirms<A>(evs: seq<GateEvent<A>>): nat
    decreases |evs|
  {
    if evs == [] then 0 else (if evs[0].Confirm? then 1 else 0) + Confirms(evs[1..])
  }

  /** What has run plus what may still run. */
  function Potential<A>(st: GateState<A>): nat {
    |st.ran| + (if st.pending.Some? then 1 else 0)
  }

  lemma StepPotential<A>(st: GateState<A>, ev: GateEvent<A>)
    ensures Potential(Step(st, ev)) <= Potential(st) + (if ev.Confirm? then 1 else 0)
    ensures |Step(st, ev).ran| >= |st.ran| && Step(st, ev).ran[..|st.ran|] == st.ran
  {
    RunsOnlyWhenAccepted(st, ev);
  }

  /**
   * Over any sequence of events, actions run at most once per `confirm`
   * (plus the one pending at the start), and what has run stays run.
   */
  lemma {:induction false} RunsBoundedByConfirms<A>(st: GateState<A>, evs: seq<GateEvent<A>>)
    ensures |Run(st, evs).ran| <= Potential(Run(st, evs)) <= Potential(st) + Confirms(evs)
    ensures |Run(st, evs).ran| >= |st.ran| && Run(st, evs).ran[..|st.ran|] == st.ran
    decreases |evs|
  {
    if evs != [] {
      var next := Step(st, evs[0]);
      StepPotential(st, evs[0]);
      RunsBoundedByConfirms(next, evs[1..]);
      var last := Run(next, evs[1..]);
      assert last.ran[..|next.ran|] == next.ran;
      assert last.ran[..|st.ran|] == next.ran[..|st.ran|];
    }
  }

  /** From the initial state, actions never outnumber confirmations. */
  lemma RunsFromInitial<A>(evs: seq<GateEvent<A>>)
    ensures |Run(Initial<A>(), evs).ran| <= Confirms(evs)
  {
    RunsBoundedByConfirms(Initial<A>(), evs);
  }

  /** The hook together with the modal it renders. */
  class Gate<A> {
    var isModalOpen: bool
    var showMonkey: bool
    var pending: Option<A>
    var input: string
    var error: bool
    var shake: bool
    var ran: seq<A>
    var successes: nat

    function State(): GateState<A>
      reads this
    {
      GateState(isModalOpen, showMonkey, pending, input, error, shake, ran, successes)
    }

    method Set(st: GateState<A>)
      modifies this
      ensures State() == st
    {
      isModalOpen, showMonkey, pending := st.isModalOpen, st.showMonkey, st.pending;
      input, error, shake := st.input, st.error, st.shake;
      ran, successes := st.ran, st.successes;
    }

    constructor()
      ensures State() == Initial<A>()
    {
      isModalOpen, showMonkey, pending := false, false, None;
      input, error, shake := "", false, false;
      ran, successes := [], 0;
    }

    /** `isConfirming`. */
    function IsConfirming(): (b: bool)
      reads this
      ensures b == State().isModalOpen
    {
      isModalOpen
    }

    method Confirm(a: A)
      modifies this
      ensures State() == Step(old(State()), GateEvent.Confirm(a))
    {
      pending := Some(a);
      isModalOpen := true;
    }

    /** The hook's `handleConfirm`, the modal's `onConfirm`. */
    method HandleConfirm(throws: bool)
      modifies this
      ensures State() == HookConfirm(old(State()), throws)
    {
      isModalOpen := false;
      if pending.Some? {
        ran := ran + [pending.value];
        if !throws {
          showMonkey := true;
          successes := successes + 1;
        }
      }
      pending := None;
    }

    /** The hook's `handleCancel`, the modal's `onCancel`. */
    method HandleCancel()
      modifies this
      ensures State() == HookCancel(old(State()))
    {
      isModalOpen := false;
      pending := None;
    }

    method HandleMonkeyComplete()
      modifies this
      ensures State() == Step(old(State()), GateEvent.MonkeyComplete)
    {
      showMonkey := false;
    }

    /** The modal's confirm button. */
    method ModalConfirm(throws: bool)
      modifies this
      ensures State() == Step(old(State()), GateEvent.ConfirmClick(throws))
    {
      if !isModalOpen {
        return;
      }
      ghost var st := State();
      if Accepts(input) {
        input := "";
        error := false;
        assert State() == st.(input := "", error := false);
        HandleConfirm(throws);
        assert State() == ModalConfirmed(st, throws);
      } else {
        error := true;
        shake := true;
        assert State() == ModalConfirmed(st, throws);
      }
    }

    /** The modal's cancel button and its backdrop. */
    method ModalCancel()
      modifies this
      ensures State() == Step(old(State()), GateEvent.CancelClick)
      ensures State() == Step(old(State()), GateEvent.BackdropClick)
    {
      if !isModalOpen {
        return;
      }
      input := "";
      error := false;
      HandleCancel();
    }

    method KeyDown(key: string, throws: bool)
      modifies this
      ensures State() == Step(old(State()), GateEvent.KeyDown(key, throws))
    {
      if !isModalOpen {
        return;
      }
      ghost var st := State();
      KeysAsClicks(st, key, throws);
      if key == "Enter" {
        ModalConfirm(throws);
      } else if key == "Escape" {
        ModalCancel();
      }
    }

    /** The input's change handler. */
    method Edit(text: string)
      modifies this
      ensures State() == Step(old(State()), GateEvent.Edit(text))
    {
      if isModalOpen {
        input := text;
        error := false;
      }
    }

    /** The 500 ms timer that ends the shake. */
    method ShakeTimeout()
      modifies this
      ensures State() == Step(old(State()), GateEvent.ShakeTimeout)
    {
      shake := false;
    }
  }
}
