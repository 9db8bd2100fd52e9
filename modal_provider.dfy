/**
 * The host that renders one dialog per entry of the modal stack and wires
 * each dialog's requests to the entry's callbacks and to the store.
 */
module ModalProvider {
  import opened Wrappers
  import opened ModalStore
  import opened ModalHook
  import ConfirmDialog
  import PromptDialog

  /** A callback of a stack entry run by the host, or a removal from the store, in the order they happen. */
  datatype Step = ConfirmCallback(id: string) | CancelCallback(id: string) | Removal(id: string)

  /** The dialogs on screen and the settled promises. */
  datatype Ui = Ui(modals: seq<ModalConfig>, outcomes: map<nat, Outcome>)

  /** Closing a dialog: its cancel callback when it has one, then its removal. */
  function Close(s: Ui, m: ModalConfig): (r: Ui)
    ensures r.modals == Without(s.modals, m.id)
    ensures m.hasCancel ==> r.outcomes == Settle(s.outcomes, m.cell, CancelOutcome(m))
    ensures !m.hasCancel ==> r.outcomes == s.outcomes
  {
    Ui(Without(s.modals, m.id), if m.hasCancel then Settle(s.outcomes, m.cell, CancelOutcome(m)) else s.outcomes)
  }

  function CloseSteps(m: ModalConfig): (steps: seq<Step>)
    ensures |steps| == (if m.hasCancel then 2 else 1) && steps[|steps| - 1] == Removal(m.id)
  {
    (if m.hasCancel then [CancelCallback(m.id)] else []) + [Removal(m.id)]
  }

  /** Confirming a dialog: its confirm callback (a prompt's with the value), then its removal. */
  function Confirm(s: Ui, m: ModalConfig, value: string): (r: Ui)
    ensures r.modals == Without(s.modals, m.id)
    ensures r.outcomes == Settle(s.outcomes, m.cell, ConfirmOutcome(m, value))
  {
    Ui(Without(s.modals, m.id), Settle(s.outcomes, m.cell, ConfirmOutcome(m, value)))
  }

  function ConfirmSteps(m: ModalConfig): (steps: seq<Step>)
    ensures steps == [ConfirmCallback(m.id), Removal(m.id)]
  {
    [ConfirmCallback(m.id), Removal(m.id)]
  }

  /** One request of the dialog showing `m`. A confirmation dialog passes no value; its callback ignores it. */
  function Host(s: Ui, m: ModalConfig, call: PropCall): Ui
  {
    match call
    case ConfirmProp(v) => Confirm(s, m, v.GetOr(""))
    case CloseProp => Close(s, m)
  }

  function HostSteps(m: ModalConfig, call: PropCall): seq<Step>
  {
    match call
    case ConfirmProp(_) => ConfirmSteps(m)
    case CloseProp => CloseSteps(m)
  }

  /** The requests of the dialog showing `m`, handled in order. */
  function HostAll(s: Ui, m: ModalConfig, calls: seq<PropCall>): Ui
  {
    if calls == [] then s else Host(HostAll(s, m, calls[..|calls| - 1]), m, calls[|calls| - 1])
  }

  function StepsOf(m: ModalConfig, calls: seq<PropCall>): seq<Step>
  {
    if calls == [] then [] else StepsOf(m, calls[..|calls| - 1]) + HostSteps(m, calls[|calls| - 1])
  }

  /**
   * Handling requests only ever removes the dialog's own entries and
   * settles its own cell: every other dialog stays, in order, and every
   * settled promise keeps its outcome.
   */
  lemma {:induction false} OthersUntouched(s: Ui, m: ModalConfig, calls: seq<PropCall>)
    ensures HostAll(s, m, calls).modals == Without(s.modals, m.id) || (calls == [] && HostAll(s, m, calls) == s)
    ensures forall c :: c in s.outcomes ==> c in HostAll(s, m, calls).outcomes && HostAll(s, m, calls).outcomes[c] == s.outcomes[c]
    ensures forall c :: c != m.cell ==> (c in HostAll(s, m, calls).outcomes <==> c in s.outcomes)
    decreases |calls|
  {
    if calls != [] {
      var front := calls[..|calls| - 1];
      OthersUntouched(s, m, front);
      var t := HostAll(s, m, front);
      if front == [] {
        assert t == s;
      } else {
        WithoutIdempotent(s.modals, m.id);
      }
    }
  }

  /**
   * The confirm button of a confirmation dialog over a pending promise:
   * the promise settles true, the entry is removed, and the close that
   * follows runs the cancel callback, which no longer changes the promise,
   * and removes the entry a second time, which no longer changes the stack.
   */
  lemma ConfirmClickAnswersTrue(s: Ui, m: ModalConfig)
    requires m.ConfirmModal? && m.hasCancel && m.cell !in s.outcomes
    ensures HostAll(s, m, ConfirmDialog.ConfirmClick()) == Ui(Without(s.modals, m.id), s.outcomes[m.cell := Answered(true)])
    ensures StepsOf(m, ConfirmDialog.ConfirmClick())
         == [ConfirmCallback(m.id), Removal(m.id), CancelCallback(m.id), Removal(m.id)]
  {
    var calls := ConfirmDialog.ConfirmClick();
    var first := calls[..1];
    assert first == [ConfirmProp(None)] && first[..0] == [] && calls[..|calls| - 1] == first;
    assert HostAll(s, m, first) == Host(HostAll(s, m, []), m, ConfirmProp(None)) == Confirm(s, m, "");
    assert StepsOf(m, first) == StepsOf(m, []) + HostSteps(m, ConfirmProp(None));
    WithoutIdempotent(s.modals, m.id);
  }

  /** Cancelling (or dismissing) a dialog over a pending promise settles it as cancelled and removes the entry. */
  lemma CancelClickAnswersCancel(s: Ui, m: ModalConfig)
    requires m.hasCancel && m.cell !in s.outcomes
    ensures HostAll(s, m, ConfirmDialog.CancelClick()) == Ui(Without(s.modals, m.id), s.outcomes[m.cell := CancelOutcome(m)])
    ensures m.ConfirmModal? ==> HostAll(s, m, ConfirmDialog.CancelClick()).outcomes[m.cell] == Answered(false)
    ensures m.PromptModal? ==> HostAll(s, m, ConfirmDialog.CancelClick()).outcomes[m.cell] == Entered(None)
  {
    var calls := ConfirmDialog.CancelClick();
    assert calls[..0] == [];
  }

  /**
   * Submitting a prompt over a pending promise: a refusal leaves everything
   * as it was; otherwise the promise settles to the value and the entry is
   * removed.
   */
  lemma PromptSubmitEntersValue(s: Ui, m: ModalConfig, value: string)
    requires m.PromptModal? && m.hasCancel && m.cell !in s.outcomes
    ensures PromptDialog.Refuses(m.validate, value) ==> HostAll(s, m, PromptDialog.SubmitCalls(value, m.validate)) == s
    ensures !PromptDialog.Refuses(m.validate, value) ==>
      HostAll(s, m, PromptDialog.SubmitCalls(value, m.validate))
        == Ui(Without(s.modals, m.id), s.outcomes[m.cell := Entered(Some(value))])
  {
    var calls := PromptDialog.SubmitCalls(value, m.validate);
    if !PromptDialog.Refuses(m.validate, value) {
      var first := calls[..1];
      assert first == [ConfirmProp(Some(value))] && first[..0] == [] && calls[..|calls| - 1] == first;
      assert HostAll(s, m, first) == Host(HostAll(s, m, []), m, ConfirmProp(Some(value))) == Confirm(s, m, value);
      WithoutIdempotent(s.modals, m.id);
    }
  }

  /** `handleClose`. */
  method HandleClose(stack: ModalStack, promises: Promises, m: ModalConfig) returns (steps: seq<Step>)
    modifies stack, promises
    ensures Ui(stack.modals, promises.outcomes) == Close(Ui(old(stack.modals), old(promises.outcomes)), m)
    ensures steps == CloseSteps(m)
  {
    steps := [];
    if m.hasCancel {
      OnCancel(promises, m);
      steps := [CancelCallback(m.id)];
    }
    stack.RemoveModal(m.id);
    steps := steps + [Removal(m.id)];
  }

  /** The `onConfirm` the host hands to a dialog. */
  method HandleConfirm(stack: ModalStack, promises: Promises, m: ModalConfig, value: string) returns (steps: seq<Step>)
    modifies stack, promises
    ensures Ui(stack.modals, promises.outcomes) == Confirm(Ui(old(stack.modals), old(promises.outcomes)), m, value)
    ensures steps == ConfirmSteps(m)
  {
    OnConfirm(promises, m, value);
    stack.RemoveModal(m.id);
    steps := [ConfirmCallback(m.id), Removal(m.id)];
  }

  /** One more request extends the hosted state and the steps by that request's part. */
  lemma ServeStep(s: Ui, m: ModalConfig, calls: seq<PropCall>, i: nat)
    requires i < |calls|
    ensures HostAll(s, m, calls[..i + 1]) == Host(HostAll(s, m, calls[..i]), m, calls[i])
    ensures StepsOf(m, calls[..i + 1]) == StepsOf(m, calls[..i]) + HostSteps(m, calls[i])
  {
    assert calls[..i + 1][..i] == calls[..i];
  }

  /** The host answering the requests of the dialog showing `m`, one after the other. */
  method Serve(stack: ModalStack, promises: Promises, m: ModalConfig, calls: seq<PropCall>) returns (steps: seq<Step>)
    modifies stack, promises
    ensures Ui(stack.modals, promises.outcomes) == HostAll(Ui(old(stack.modals), old(promises.outcomes)), m, calls)
    ensures steps == StepsOf(m, calls)
  {
    ghost var s0 := Ui(stack.modals, promises.outcomes);
    steps := [];
    for i := 0 to |calls|
      invariant Ui(stack.modals, promises.outcomes) == HostAll(s0, m, calls[..i])
      invariant steps == StepsOf(m, calls[..i])
    {
      ServeStep(s0, m, calls, i);
      ghost var before := Ui(stack.modals, promises.outcomes);
      var more: seq<Step>;
      match calls[i] {
        case ConfirmProp(v) =>
          more := HandleConfirm(stack, promises, m, v.GetOr(""));
        case CloseProp =>
          more := HandleClose(stack, promises, m);
      }
      assert Ui(stack.modals, promises.outcomes) == Host(before, m, calls[i]);
      assert more == HostSteps(m, calls[i]);
      steps := steps + more;
    }
    assert calls[..|calls|] == calls;
  }

  /** What the host renders for one entry, with every default applied. */
  datatype Dialog =
    | ConfirmView(key: string, view: ConfirmDialog.View)
    | PromptView(key: string, title: string, message: Option<string>, initial: string, placeholder: string,
                 confirmLabel: string, cancelLabel: string)

  function Render(m: ModalConfig): (d: Dialog)
    ensures d.key == m.id && (d.ConfirmView? <==> m.ConfirmModal?)
    ensures m.PromptModal? ==> d.initial == m.defaultValue.GetOr("") && d.placeholder == m.placeholder.GetOr("")
    ensures m.PromptModal? ==> d.confirmLabel == m.confirmText.GetOr(PromptDialog.DefaultConfirmText)
    ensures m.PromptModal? ==> d.cancelLabel == m.cancelText.GetOr(PromptDialog.DefaultCancelText)
  {
    match m
    case ConfirmModal(id, title, message, confirmText, cancelText, variant, _, _) =>
      ConfirmView(id, ConfirmDialog.Render(title, message, confirmText, cancelText, variant))
    case PromptModal(id, title, prompt, defaultValue, placeholder, confirmText, cancelText, _, _, _) =>
      PromptView(id, title, prompt, defaultValue.GetOr(""), placeholder.GetOr(""),
                 confirmText.GetOr(PromptDialog.DefaultConfirmText), cancelText.GetOr(PromptDialog.DefaultCancelText))
  }

  /** One dialog per stack entry, in stack order, keyed by the entry's id. */
  function Rendered(modals: seq<ModalConfig>): (ds: seq<Dialog>)
    ensures |ds| == |modals|
    ensures forall i :: 0 <= i < |ds| ==> ds[i] == Render(modals[i]) && ds[i].key == modals[i].id
  {
    seq(|modals|, i requires 0 <= i < |modals| => Render(modals[i]))
  }
}
