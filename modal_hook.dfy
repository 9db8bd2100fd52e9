/**
 * `useModal`: `showConfirm` and `showPrompt` push a dialog whose callbacks
 * settle a promise. A promise settles once; later settlements are ignored.
 * Promises are cells of a map from cell number to outcome.
 */
module ModalHook {
  import opened Wrappers
  import opened ModalStore

  /** A confirmation's boolean, or a prompt's value (`None` for null). */
  datatype Outcome = Answered(confirmed: bool) | Entered(value: Option<string>)

  /** Settling a cell: the first outcome stays. */
  function Settle(outcomes: map<nat, Outcome>, cell: nat, o: Outcome): (r: map<nat, Outcome>)
    ensures cell in r
    ensures cell in outcomes ==> r == outcomes
    ensures cell !in outcomes ==> r[cell] == o
    ensures forall c :: c != cell ==> (c in r <==> c in outcomes)
    ensures forall c :: c in outcomes ==> c in r && r[c] == outcomes[c]
  {
    if cell in outcomes then outcomes else outcomes[cell := o]
  }

  /** Whatever settles a fresh cell first decides it. */
  lemma FirstSettlementWins(outcomes: map<nat, Outcome>, cell: nat, first: Outcome, second: Outcome)
    requires cell !in outcomes
    ensures Settle(Settle(outcomes, cell, first), cell, second)[cell] == first
    ensures Settle(Settle(outcomes, cell, first), cell, second) == outcomes[cell := first]
  {
  }

  class Promises {
    var outcomes: map<nat, Outcome>

    constructor()
      ensures outcomes == map[]
    {
      outcomes := map[];
    }

    method Resolve(cell: nat, o: Outcome)
      modifies this
      ensures outcomes == Settle(old(outcomes), cell, o)
    {
      if cell !in outcomes {
        outcomes := outcomes[cell := o];
      }
    }
  }

  datatype ConfirmOptions = ConfirmOptions(title: string, message: string, confirmText: Option<string>,
                                           cancelText: Option<string>, variant: Option<Variant>)

  datatype PromptOptions = PromptOptions(title: string, message: Option<string>, defaultValue: Option<string>,
                                         placeholder: Option<string>, confirmText: Option<string>,
                                         cancelText: Option<string>, validate: Option<string -> Option<string>>)

  /** The confirmation dialog `showConfirm` pushes; its id is replaced by the store's. */
  function ConfirmConfig(o: ConfirmOptions, cell: nat): (m: ModalConfig)
    ensures m.ConfirmModal? && m.cell == cell && m.hasCancel
    ensures m.title == o.title && m.message == o.message
    ensures m.confirmText == o.confirmText && m.cancelText == o.cancelText && m.variant == o.variant
  {
    ConfirmModal("", o.title, o.message, o.confirmText, o.cancelText, o.variant, cell, true)
  }

  /** The prompt dialog `showPrompt` pushes. */
  function PromptConfig(o: PromptOptions, cell: nat): (m: ModalConfig)
    ensures m.PromptModal? && m.cell == cell && m.hasCancel
    ensures m.title == o.title && m.prompt == o.message && m.defaultValue == o.defaultValue
    ensures m.placeholder == o.placeholder && m.confirmText == o.confirmText && m.cancelText == o.cancelText
    ensures m.validate == o.validate
  {
    PromptModal("", o.title, o.message, o.defaultValue, o.placeholder, o.confirmText, o.cancelText, o.validate,
                cell, true)
  }

  /** What a dialog's `onConfirm` settles its promise with. */
  function ConfirmOutcome(m: ModalConfig, value: string): (o: Outcome)
    ensures m.ConfirmModal? ==> o == Answered(true)
    ensures m.PromptModal? ==> o == Entered(Some(value))
  {
    if m.ConfirmModal? then Answered(true) else Entered(Some(value))
  }

  /** What a dialog's `onCancel` settles its promise with. */
  function CancelOutcome(m: ModalConfig): (o: Outcome)
    ensures m.ConfirmModal? ==> o == Answered(false)
    ensures m.PromptModal? ==> o == Entered(None)
  {
    if m.ConfirmModal? then Answered(false) else Entered(None)
  }

  /**
   * A confirmation settles true if confirmed first and false if cancelled
   * first; a prompt settles to the value if confirmed first and to null if
   * cancelled first.
   */
  lemma OutcomesDecideOnce(outcomes: map<nat, Outcome>, m: ModalConfig, value: string)
    requires m.cell !in outcomes
    ensures var confirmed := Settle(outcomes, m.cell, ConfirmOutcome(m, value));
      Settle(confirmed, m.cell, CancelOutcome(m))[m.cell] == (if m.ConfirmModal? then Answered(true) else Entered(Some(value)))
    ensures var cancelled := Settle(outcomes, m.cell, CancelOutcome(m));
      Settle(cancelled, m.cell, ConfirmOutcome(m, value))[m.cell] == (if m.ConfirmModal? then Answered(false) else Entered(None))
  {
    FirstSettlementWins(outcomes, m.cell, ConfirmOutcome(m, value), CancelOutcome(m));
    FirstSettlementWins(outcomes, m.cell, CancelOutcome(m), ConfirmOutcome(m, value));
  }

  /** `showConfirm`: one confirmation dialog pushed; `cell` is the promise it returns. */
  method ShowConfirm(stack: ModalStack, options: ConfirmOptions, cell: nat, freshId: string) returns (id: string)
    modifies stack
    ensures id == freshId
    ensures stack.modals == old(stack.modals) + [WithId(ConfirmConfig(options, cell), freshId)]
  {
    id := stack.AddModal(ConfirmConfig(options, cell), freshId);
  }

  /** `showPrompt`: one prompt dialog pushed; `cell` is the promise it returns. */
  method ShowPrompt(stack: ModalStack, options: PromptOptions, cell: nat, freshId: string) returns (id: string)
    modifies stack
    ensures id == freshId
    ensures stack.modals == old(stack.modals) + [WithId(PromptConfig(options, cell), freshId)]
  {
    id := stack.AddModal(PromptConfig(options, cell), freshId);
  }

  /** The `onConfirm` callback of a pushed dialog. */
  method OnConfirm(promises: Promises, m: ModalConfig, value: string)
    modifies promises
    ensures promises.outcomes == Settle(old(promises.outcomes), m.cell, ConfirmOutcome(m, value))
  {
    promises.Resolve(m.cell, ConfirmOutcome(m, value));
  }

  /** The `onCancel` callback of a pushed dialog. */
  method OnCancel(promises: Promises, m: ModalConfig)
    modifies promises
    ensures promises.outcomes == Settle(old(promises.outcomes), m.cell, CancelOutcome(m))
  {
    promises.Resolve(m.cell, CancelOutcome(m));
  }
}
