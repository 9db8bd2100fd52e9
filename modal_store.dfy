/**
 * The modal stack: confirmation and prompt dialogs, each with an id, shown
 * in the order they were added. Each dialog's callbacks settle one promise
 * cell, named by `cell`; `hasCancel` says whether a cancel callback was given.
 */
module ModalStore {
  import opened Wrappers
  import opened Sequences

  datatype Variant = Danger | Warning | Info

  datatype ModalConfig =
    | ConfirmModal(id: string, title: string, message: string, confirmText: Option<string>,
                   cancelText: Option<string>, variant: Option<Variant>, cell: nat, hasCancel: bool)
    | PromptModal(id: string, title: string, prompt: Option<string>, defaultValue: Option<string>,
                  placeholder: Option<string>, confirmText: Option<string>, cancelText: Option<string>,
                  validate: Option<string -> Option<string>>, cell: nat, hasCancel: bool)

  /** What a dialog asks of the code that shows it: confirm (a prompt passes its value), or close. */
  datatype PropCall = ConfirmProp(value: Option<string>) | CloseProp

  /** The configuration with the id the store assigns. */
  function WithId(m: ModalConfig, id: string): (r: ModalConfig)
    ensures r == m.(id := id)
  {
    match m
    case ConfirmModal(_, t, msg, c, x, v, cell, h) => ConfirmModal(id, t, msg, c, x, v, cell, h)
    case PromptModal(_, t, p, d, ph, c, x, val, cell, h) => PromptModal(id, t, p, d, ph, c, x, val, cell, h)
  }

  function ModalKey(m: ModalConfig): string
  {
    m.id
  }

  /** The stack without the dialogs whose id is `id`, others in order. */
  function Without(modals: seq<ModalConfig>, id: string): (r: seq<ModalConfig>)
    ensures forall i :: 0 <= i < |r| ==> r[i].id != id
  {
    RemoveKey(modals, ModalKey, id)
  }

  predicate HasModal(modals: seq<ModalConfig>, id: string)
  {
    exists i :: 0 <= i < |modals| && modals[i].id == id
  }

  /** Removing an id that is not on the stack leaves it as it is; removing one that is shortens it. */
  lemma WithoutEffect(modals: seq<ModalConfig>, id: string)
    ensures !HasModal(modals, id) ==> Without(modals, id) == modals
    ensures HasModal(modals, id) ==> |Without(modals, id)| < |modals|
  {
    if HasModal(modals, id) {
      var i :| 0 <= i < |modals| && modals[i].id == id;
      WithoutDropsOne(modals, id, i);
    }
  }

  lemma {:induction false} WithoutDropsOne(modals: seq<ModalConfig>, id: string, i: nat)
    requires i < |modals| && modals[i].id == id
    ensures |Without(modals, id)| < |modals|
  {
    if i > 0 {
      WithoutDropsOne(modals[1..], id, i - 1);
    }
  }

  /** A second removal of the same id changes nothing. */
  lemma WithoutIdempotent(modals: seq<ModalConfig>, id: string)
    ensures Without(Without(modals, id), id) == Without(modals, id)
  {
    RemoveKeyIdempotent(modals, ModalKey, id);
  }

  /** Removal works entry by entry, so the modals added later stay after the ones added earlier. */
  lemma WithoutAppend(modals: seq<ModalConfig>, m: ModalConfig, id: string)
    ensures Without(modals + [m], id) == Without(modals, id) + (if m.id == id then [] else [m])
  {
    RemoveKeyConcat(modals, [m], ModalKey, id);
  }

  class ModalStack {
    var modals: seq<ModalConfig>

    constructor()
      ensures modals == []
    {
      modals := [];
    }

    /** Pushes the configuration under the id `freshId` and returns that id. */
    method AddModal(config: ModalConfig, freshId: string) returns (id: string)
      modifies this
      ensures id == freshId
      ensures modals == old(modals) + [WithId(config, freshId)]
    {
      id := freshId;
      modals := modals + [WithId(config, id)];
    }

    method RemoveModal(id: string)
      modifies this
      ensures modals == Without(old(modals), id)
    {
      modals := Without(modals, id);
    }

    method ClearAll()
      modifies this
      ensures modals == []
    {
      modals := [];
    }
  }
}
