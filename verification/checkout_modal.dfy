/** The payment dialog of the cashier screen
    (src/components/cashier/CheckoutModal.tsx): review the order and pick a
    method (step 1), confirm (step 2), done (step 3). Each user action is a
    transition of the dialog's state; what the dialog tells its parent is a
    `Notice`. */
module CheckoutModal {
  import opened Common

  /** The dialog's own state: the step, the chosen method and the text of
      the amount-paid field. */
  datatype Modal = Modal(step: int, paymentMethod: string, amountPaid: string)

  /** The state the dialog is created in. */
  function Initial(): Modal {
    Modal(1, "cash", "")
  }

  /** What the user can do. `Dismiss` is "Batal" on step 1 or closing the
      dialog from outside, on any step. */
  datatype Action =
    | ChooseMethod(choice: string)
    | EditAmount(text: string)
    | Proceed
    | Back
    | Confirm
    | Finish
    | Dismiss

  /** What the dialog does besides changing its state: nothing, call
      `onClose`, call `onPaymentSuccess(method)`, or throw. */
  datatype Notice = Silent | Closed | Paid(paidWith: string) | ReferenceError

  datatype Outcome = Outcome(next: Modal, notice: Notice)

  /** Which confirm handler runs: the one in the file, which reads a name it
      never bound, or the intended one, which calls the optional hook when
      the parent passed one. */
  datatype Build = AsWritten | Corrected(hookPassed: bool)

  /** `handleAmountPaidChange`: the typed text with every non-digit removed. */
  function DigitsOnly(text: string): (r: string)
    ensures AllDigits(r)
  {
    Filter(text, IsDigit)
  }

  /** `getChange`: the amount paid, read as a number or 0, minus the total. */
  function Change(amountPaid: string, total: real): (c: real)
    ensures c + total == ParseIntOrZero(amountPaid) as real
  {
    ParseIntOrZero(amountPaid) as real - total
  }

  /** The disabled guard of "Lanjut ke Pembayaran". */
  predicate ProceedDisabled(m: Modal) {
    m.paymentMethod == "cash" && m.amountPaid == ""
  }

  /** The effect of one action. A control that is not rendered in the current
      step (or, for the amount field, with the current method) cannot be
      used, so its action leaves everything as it is. */
  function Apply(m: Modal, a: Action, build: Build): (o: Outcome)
    ensures o.next.step == m.step
            || (m.step == 1 && o.next.step == 2 && a.Proceed? && !ProceedDisabled(m))
            || (m.step == 2 && o.next.step == 1 && a.Back?)
            || (m.step == 2 && o.next.step == 3 && a.Confirm? && build.Corrected?)
            || (m.step == 3 && o.next.step == 1 && a.Finish?)
    ensures o.next.paymentMethod != m.paymentMethod ==> m.step == 1 && a.ChooseMethod?
    ensures o.next.amountPaid != m.amountPaid ==> a.EditAmount? && o.next.amountPaid == DigitsOnly(a.text)
    ensures o.notice.Paid? ==> a.Confirm? && build.Corrected? && build.hookPassed && o.next.step == 3
    ensures o.notice.ReferenceError? <==> a.Confirm? && m.step == 2 && build.AsWritten?
  {
    match a
    case ChooseMethod(v) =>
      if m.step == 1 then Outcome(m.(paymentMethod := v), Silent) else Outcome(m, Silent)
    case EditAmount(text) =>
      if m.step == 1 && m.paymentMethod == "cash" then Outcome(m.(amountPaid := DigitsOnly(text)), Silent)
      else Outcome(m, Silent)
    case Proceed =>
      if m.step == 1 && !ProceedDisabled(m) then Outcome(m.(step := 2), Silent) else Outcome(m, Silent)
    case Back =>
      if m.step == 2 then Outcome(m.(step := 1), Silent) else Outcome(m, Silent)
    case Confirm =>
      if m.step != 2 then Outcome(m, Silent)
      else if build.AsWritten? then Outcome(m, ReferenceError)
      else Outcome(m.(step := 3), if build.hookPassed then Paid(m.paymentMethod) else Silent)
    case Finish =>
      if m.step == 3 then Outcome(m.(step := 1), Closed) else Outcome(m, Silent)
    case Dismiss =>
      Outcome(m, Closed)
  }

  /** The final state and the notices of a sequence of actions. */
  datatype Trace = Trace(last: Modal, notices: seq<Notice>)

  function Run(m: Modal, acts: seq<Action>, build: Build): (t: Trace)
    ensures |t.notices| == |acts|
    decreases |acts|
  {
    if acts == [] then Trace(m, [])
    else
      var o := Apply(m, acts[0], build);
      var t := Run(o.next, acts[1..], build);
      Trace(t.last, [o.notice] + t.notices)
  }

  /** The states the dialog can be in: step 1, 2 or 3, and a digits-only
      amount. */
  predicate Reachable(m: Modal) {
    1 <= m.step <= 3 && AllDigits(m.amountPaid)
  }

  /** The dialog starts in a reachable state and every action keeps it there. */
  lemma ApplyKeepsReachable(m: Modal, a: Action, build: Build)
    requires Reachable(m)
    ensures Reachable(Apply(m, a, build).next)
  {
  }

  lemma {:induction false} RunKeepsReachable(m: Modal, acts: seq<Action>, build: Build)
    requires Reachable(m)
    ensures Reachable(Run(m, acts, build).last)
    decreases |acts|
  {
    if acts != [] {
      ApplyKeepsReachable(m, acts[0], build);
      RunKeepsReachable(Apply(m, acts[0], build).next, acts[1..], build);
    }
  }

  /** From the initial state, the step is 1, 2 or 3 whatever the user does. */
  lemma StepAlwaysInRange(acts: seq<Action>, build: Build)
    ensures 1 <= Run(Initial(), acts, build).last.step <= 3
  {
    RunKeepsReachable(Initial(), acts, build);
  }

  /** The step changes exactly by these transitions: proceed 1 to 2 when the
      guard allows, back 2 to 1, confirm 2 to 3 (in the corrected dialog) and
      finish 3 to 1, which also calls `onClose`. */
  lemma StepTransitions(m: Modal, a: Action, build: Build)
    requires Reachable(m)
    ensures var o := Apply(m, a, build);
      (o.next.step == 2 && m.step == 1 <==> a == Proceed && m.step == 1 && !ProceedDisabled(m)) &&
      (o.next.step == 1 && m.step == 2 <==> a == Back && m.step == 2) &&
      (o.next.step == 3 && m.step == 2 <==> a == Confirm && m.step == 2 && build.Corrected?) &&
      (o.next.step == 1 && m.step == 3 <==> a == Finish && m.step == 3) &&
      (m.step == 1 ==> o.next.step != 3) && (m.step == 3 ==> o.next.step != 2) &&
      (a == Finish && m.step == 3 ==> o.notice == Closed)
  {
  }

  /** Proceeding is blocked exactly for cash with nothing typed; e-wallet and
      bank transfer are never blocked. */
  lemma ProceedGuard(m: Modal)
    requires m.step == 1
    ensures Apply(m, Proceed, AsWritten).next.step == 1 <==> m.paymentMethod == "cash" && m.amountPaid == ""
    ensures m.paymentMethod == "e-wallet" || m.paymentMethod == "bank" ==> Apply(m, Proceed, AsWritten).next.step == 2
  {
  }

  /** Choosing a payment method changes neither the step nor the amount. */
  lemma ChooseMethodKeepsStepAndAmount(m: Modal, v: string, build: Build)
    ensures Apply(m, ChooseMethod(v), build).next.step == m.step
    ensures Apply(m, ChooseMethod(v), build).next.amountPaid == m.amountPaid
  {
  }

  /** Filtering out non-digits a second time changes nothing. */
  lemma DigitsOnlyIdempotent(text: string)
    ensures DigitsOnly(DigitsOnly(text)) == DigitsOnly(text)
  {
    FilterKeepsAll(DigitsOnly(text), IsDigit);
  }

  /** The filter keeps every digit of the typed text, in order. */
  lemma DigitsOnlyKeepsDigits(text: string)
    ensures Subseq(DigitsOnly(text), text)
    ensures forall i :: 0 <= i < |text| && IsDigit(text[i]) ==> text[i] in DigitsOnly(text)
    ensures AllDigits(text) ==> DigitsOnly(text) == text
  {
    if AllDigits(text) {
      FilterKeepsAll(text, IsDigit);
    }
  }

  /** With nothing typed the amount counts as 0, so the change is minus the
      total; with 100000 typed against a total of 71500 it is 28500, and with
      50000 typed it is -21500. */
  lemma ChangeExamples()
    ensures Change("", 71500.0) == -71500.0
    ensures Change("100000", 71500.0) == 28500.0
    ensures Change("50000", 71500.0) == -21500.0
  {
    ShowHundredThousand();
    ChangeOfShown(100000, 71500.0);
    ShowFiftyThousand();
    ChangeOfShown(50000, 71500.0);
  }

  /** The change for the decimal notation of a whole amount. */
  lemma ChangeOfShown(n: nat, total: real)
    ensures Change(ShowNat(n), total) == n as real - total
  {
    ParseShowNat(n);
  }

  lemma ShowHundredThousand()
    ensures ShowNat(100000) == "100000"
  {
    assert ShowNat(1) == "1";
    ShowNatTimesTen(1);
    ShowNatTimesTen(10);
    ShowNatTimesTen(100);
    ShowNatTimesTen(1000);
    ShowNatTimesTen(10000);
  }

  lemma ShowFiftyThousand()
    ensures ShowNat(50000) == "50000"
  {
    assert ShowNat(5) == "5";
    ShowNatTimesTen(5);
    ShowNatTimesTen(50);
    ShowNatTimesTen(500);
    ShowNatTimesTen(5000);
  }

  /** The finding: as written, confirming on step 2 throws before `setStep(3)`
      and the dialog stays on step 2, so no sequence of actions ever reaches
      step 3. */
  lemma {:induction false} AsWrittenNeverCompletes(m: Modal, acts: seq<Action>)
    requires m.step == 1 || m.step == 2
    ensures var t := Run(m, acts, AsWritten);
      (t.last.step == 1 || t.last.step == 2) && Paid(m.paymentMethod) !in t.notices
    decreases |acts|
  {
    if acts != [] {
      var o := Apply(m, acts[0], AsWritten);
      AsWrittenNeverCompletes(o.next, acts[1..]);
      UnwiredNeverPays(o.next, acts[1..], AsWritten, m.paymentMethod);
    }
  }

  /** As written, confirming throws and changes nothing. */
  lemma AsWrittenConfirmThrows(m: Modal)
    requires m.step == 2
    ensures Apply(m, Confirm, AsWritten) == Outcome(m, ReferenceError)
  {
  }

  /** Corrected: paying 100000 in cash and confirming reaches step 3 and
      reports the method to the parent when it passed the hook. */
  lemma CorrectedCompletes()
    ensures Run(Initial(), [EditAmount("100000"), Proceed, Confirm], Corrected(true)) ==
              Trace(Modal(3, "cash", "100000"), [Silent, Silent, Paid("cash")])
    ensures Run(Initial(), [EditAmount("100000"), Proceed, Confirm], Corrected(false)).last.step == 3
  {
    assert AllDigits("100000");
    CashPaymentRun("100000", true);
    CashPaymentRun("100000", false);
  }

  /** Typing a number for a cash payment, proceeding and confirming. */
  lemma CashPaymentRun(s: string, hook: bool)
    requires s != "" && AllDigits(s)
    ensures Run(Initial(), [EditAmount(s), Proceed, Confirm], Corrected(hook)) ==
              Trace(Modal(3, "cash", s), [Silent, Silent, if hook then Paid("cash") else Silent])
  {
    var acts := [EditAmount(s), Proceed, Confirm];
    var b := Corrected(hook);
    DigitsOnlyKeepsDigits(s);
    var m1 := Modal(1, "cash", s);
    assert Apply(Initial(), EditAmount(s), b) == Outcome(m1, Silent);
    ProceedConfirmRun(s, hook);
    assert acts[1..] == [Proceed, Confirm];
  }

  lemma ProceedConfirmRun(s: string, hook: bool)
    requires s != ""
    ensures Run(Modal(1, "cash", s), [Proceed, Confirm], Corrected(hook)) ==
              Trace(Modal(3, "cash", s), [Silent, if hook then Paid("cash") else Silent])
  {
    var b := Corrected(hook);
    var m2 := Modal(2, "cash", s);
    var m3 := Modal(3, "cash", s);
    var n := if hook then Paid("cash") else Silent;
    assert Apply(Modal(1, "cash", s), Proceed, b) == Outcome(m2, Silent);
    assert Apply(m2, Confirm, b) == Outcome(m3, n);
    assert [Confirm][1..] == [];
    assert Run(m2, [Confirm], b) == Trace(m3, [n]);
    assert [Proceed, Confirm][1..] == [Confirm];
  }

  /** Without the hook (the cashier screen does not pass it), and as written,
      the dialog never reports a payment, whatever the user does. */
  lemma {:induction false} UnwiredNeverPays(m: Modal, acts: seq<Action>, build: Build, via: string)
    requires build == AsWritten || build == Corrected(false)
    ensures Paid(via) !in Run(m, acts, build).notices
    decreases |acts|
  {
    if acts != [] {
      UnwiredNeverPays(Apply(m, acts[0], build).next, acts[1..], build, via);
    }
  }

  /** The dialog as a stateful component; its confirm handler is the corrected
      one, with the hook passed or not. */
  class Dialog {
    var step: int
    var paymentMethod: string
    var amountPaid: string
    const hookPassed: bool

    function State(): Modal
      reads this
    {
      Modal(step, paymentMethod, amountPaid)
    }

    predicate Valid()
      reads this
    {
      Reachable(State())
    }

    constructor (hookPassed: bool)
      ensures State() == Initial() && Valid()
      ensures this.hookPassed == hookPassed
    {
      step := 1;
      paymentMethod := "cash";
      amountPaid := "";
      this.hookPassed := hookPassed;
    }

    /** A method button, rendered on step 1. */
    method HandlePaymentMethodChange(value: string)
      requires Valid() && step == 1
      modifies this
      ensures Valid()
      ensures State() == Apply(old(State()), ChooseMethod(value), Corrected(hookPassed)).next
    {
      paymentMethod := value;
    }

    /** The amount field, rendered on step 1 for cash. */
    method HandleAmountPaidChange(text: string)
      requires Valid() && step == 1 && paymentMethod == "cash"
      modifies this
      ensures Valid()
      ensures State() == Apply(old(State()), EditAmount(text), Corrected(hookPassed)).next
    {
      amountPaid := DigitsOnly(text);
    }

    /** "Lanjut ke Pembayaran", rendered on step 1 and enabled unless the
        guard holds. */
    method HandleProceedToPayment()
      requires Valid() && step == 1 && !ProceedDisabled(State())
      modifies this
      ensures Valid() && step == 2
      ensures State() == Apply(old(State()), Proceed, Corrected(hookPassed)).next
    {
      step := 2;
    }

    /** "Kembali", rendered on step 2. */
    method HandleBack()
      requires Valid() && step == 2
      modifies this
      ensures Valid() && step == 1
      ensures State() == Apply(old(State()), Back, Corrected(hookPassed)).next
    {
      step := 1;
    }

    /** "Konfirmasi Pembayaran", rendered on step 2: the hook, when passed,
        hears the method; then step 3. */
    method HandleConfirmPayment() returns (notice: Notice)
      requires Valid() && step == 2
      modifies this
      ensures Valid() && step == 3
      ensures Outcome(State(), notice) == Apply(old(State()), Confirm, Corrected(hookPassed))
    {
      notice := Silent;
      if hookPassed {
        notice := Paid(paymentMethod);
      }
      step := 3;
    }

    /** "Selesai", rendered on step 3: back to step 1, then `onClose`. */
    method HandleFinish() returns (notice: Notice)
      requires Valid() && step == 3
      modifies this
      ensures Valid() && step == 1
      ensures Outcome(State(), notice) == Apply(old(State()), Finish, Corrected(hookPassed))
    {
      step := 1;
      notice := Closed;
    }

    /** "Batal" or closing the dialog: only `onClose`. */
    method HandleDismiss() returns (notice: Notice)
      requires Valid()
      modifies this
      ensures Valid() && State() == old(State())
      ensures notice == Closed
    {
      notice := Closed;
    }
  }
}
