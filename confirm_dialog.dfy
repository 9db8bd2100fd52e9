/**
 * The confirmation dialog: its labels and styles, and what its buttons ask
 * of the code that shows it.
 */
module ConfirmDialog {
  import opened Wrappers
  import opened ModalStore

  const DefaultConfirmText: string := "Confirmar"
  const DefaultCancelText: string := "Cancelar"
  const DefaultVariant: Variant := Info

  /** The icon and the classes of the confirm button and the icon's background. */
  datatype Style = Style(icon: string, confirmButton: string, iconBg: string)

  /** The style of each variant: a warning sign for danger, a bolt for warning, an information sign for info. */
  function VariantStyle(v: Variant): (s: Style)
    ensures v == Danger ==> s.icon == "\U{26A0}\U{FE0F}"
    ensures v == Warning ==> s.icon == "\U{26A1}"
    ensures v == Info ==> s.icon == "\U{2139}\U{FE0F}"
  {
    match v
    case Danger => Style("\U{26A0}\U{FE0F}", "bg-red-600 hover:bg-red-700 focus:ring-red-500", "bg-red-600/20")
    case Warning => Style("\U{26A1}", "bg-yellow-600 hover:bg-yellow-700 focus:ring-yellow-500", "bg-yellow-600/20")
    case Info => Style("\U{2139}\U{FE0F}", "bg-blue-600 hover:bg-blue-700 focus:ring-blue-500", "bg-blue-600/20")
  }

  /** Each variant looks different: the icon and its background tell them apart. */
  lemma VariantsLookDistinct(v: Variant, w: Variant)
    requires v != w
    ensures VariantStyle(v).icon != VariantStyle(w).icon
    ensures VariantStyle(v).iconBg != VariantStyle(w).iconBg
  {
    assert VariantStyle(Danger).icon[0] == '\U{26A0}';
    assert VariantStyle(Warning).icon[0] == '\U{26A1}';
    assert VariantStyle(Info).icon[0] == '\U{2139}';
    assert VariantStyle(Danger).iconBg[3] == 'r';
    assert VariantStyle(Warning).iconBg[3] == 'y';
    assert VariantStyle(Info).iconBg[3] == 'b';
  }

  /** What the dialog shows: its two labels and its style. */
  datatype View = View(title: string, message: string, confirmLabel: string, cancelLabel: string, style: Style)

  /** A missing label or variant falls back to its default; a given one is shown as is. */
  function Render(title: string, message: string, confirmText: Option<string>, cancelText: Option<string>,
                  variant: Option<Variant>): (v: View)
    ensures v.title == title && v.message == message
    ensures v.confirmLabel == (if confirmText.Some? then confirmText.value else DefaultConfirmText)
    ensures v.cancelLabel == (if cancelText.Some? then cancelText.value else DefaultCancelText)
    ensures variant.None? ==> v.style.icon == "\U{2139}\U{FE0F}"
    ensures variant.Some? ==> v.style == VariantStyle(variant.value)
  {
    View(title, message, confirmText.GetOr(DefaultConfirmText), cancelText.GetOr(DefaultCancelText),
         VariantStyle(variant.GetOr(DefaultVariant)))
  }

  /** The confirm button: confirm, then close. */
  function ConfirmClick(): (calls: seq<PropCall>)
    ensures |calls| == 2 && calls[0].ConfirmProp? && calls[0].value.None? && calls[1] == CloseProp
  {
    [ConfirmProp(None), CloseProp]
  }

  /** The cancel button, and dismissing the dialog: close only. */
  function CancelClick(): (calls: seq<PropCall>)
    ensures calls == [CloseProp]
    ensures forall i :: 0 <= i < |calls| ==> !calls[i].ConfirmProp?
  {
    [CloseProp]
  }
}
