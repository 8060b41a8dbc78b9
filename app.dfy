/**
 * The page's top-level state: whether the inquiry dialog and the admin
 * dashboard are open, and the art type handed to the dialog. The event
 * handlers are transitions on that state, and `AppState` is the component
 * whose fields they set.
 */
module App {
  import opened Strings
  import InquiryModal

  datatype AppView = AppView(isInquiryModalOpen: bool, isAdminDashboardOpen: bool, artworkType: string)

  const InitialView := AppView(false, false, "")

  /** The fields of a `keydown` event that the shortcut looks at. */
  datatype KeyEvent = KeyEvent(ctrlKey: bool, metaKey: bool, shiftKey: bool, key: string)

  /** Ctrl or Cmd, together with Shift, on the key `A`: Shift and a capital `A` are both needed, and a lower-case `a` never matches. */
  function IsAdminShortcut(e: KeyEvent): (ok: bool)
    ensures ok ==> e.shiftKey && e.key == "A"
    ensures ok ==> e.ctrlKey || e.metaKey
    ensures e.key == "a" ==> !ok
  {
    (e.ctrlKey || e.metaKey) && e.shiftKey && e.key == "A"
  }

  const SimilarInfix := " - Similar to \""

  /** The art type for "commission similar": `<medium> - Similar to "<title>"`. */
  function SimilarArtwork(title: string, medium: string): (s: string)
    ensures s != ""
    ensures IsPrefix(medium + SimilarInfix, s)
    ensures s[|medium + SimilarInfix|..] == title + "\""
  {
    var s := medium + SimilarInfix + title + "\"";
    assert s == (medium + SimilarInfix) + (title + "\"");
    s
  }

  /** `handleInquireClick`: open the dialog with no art type; the dashboard is untouched. */
  function InquireClicked(v: AppView): (w: AppView)
    ensures w.isInquiryModalOpen && w.artworkType == ""
    ensures w.isAdminDashboardOpen == v.isAdminDashboardOpen
  {
    v.(artworkType := "", isInquiryModalOpen := true)
  }

  /** `handleInquireWithArtwork`: open the dialog with the "similar to" art type; the dashboard is untouched. */
  function InquiredWithArtwork(v: AppView, title: string, medium: string): (w: AppView)
    ensures w.isInquiryModalOpen && w.artworkType == SimilarArtwork(title, medium)
    ensures w.isAdminDashboardOpen == v.isAdminDashboardOpen
  {
    v.(artworkType := SimilarArtwork(title, medium), isInquiryModalOpen := true)
  }

  /** `handleCloseModal`: close the dialog and clear the art type; the dashboard is untouched. */
  function ModalClosed(v: AppView): (w: AppView)
    ensures !w.isInquiryModalOpen && w.artworkType == ""
    ensures w.isAdminDashboardOpen == v.isAdminDashboardOpen
  {
    v.(isInquiryModalOpen := false, artworkType := "")
  }

  /** The `keydown` listener: the shortcut opens the dashboard and touches nothing else; any other key changes nothing. */
  function KeyPressed(v: AppView, e: KeyEvent): (w: AppView)
    ensures IsAdminShortcut(e) ==> w.isAdminDashboardOpen
    ensures w.isInquiryModalOpen == v.isInquiryModalOpen && w.artworkType == v.artworkType
    ensures !IsAdminShortcut(e) ==> w == v
  {
    if IsAdminShortcut(e) then v.(isAdminDashboardOpen := true) else v
  }

  /** `handleCloseAdminDashboard`: close the dashboard and touch nothing else. */
  function AdminClosed(v: AppView): (w: AppView)
    ensures !w.isAdminDashboardOpen
    ensures w.isInquiryModalOpen == v.isInquiryModalOpen && w.artworkType == v.artworkType
  {
    v.(isAdminDashboardOpen := false)
  }

  /** Shift+A alone (neither Ctrl nor Cmd held) is not the shortcut, and neither is a lower-case `a`. */
  lemma ShortcutNeedsModifierAndCapital(v: AppView)
    ensures KeyPressed(v, KeyEvent(false, false, true, "A")) == v
    ensures KeyPressed(v, KeyEvent(true, false, true, "a")) == v
    ensures KeyPressed(v, KeyEvent(false, true, true, "A")).isAdminDashboardOpen
  {
    assert "a" != "A" by { assert "a"[0] != "A"[0]; }
  }

  /**
   * The art type reaches the dialog through its `initialArtType` effect: after
   * "commission similar" the form's art type is the "similar to" text, and
   * every other field and flag of the form is as it was.
   */
  lemma CommissionPrefillsForm(v: AppView, form: InquiryModal.ModalState, title: string, medium: string)
    ensures var t := InquiryModal.WithInitialArtType(form, InquiredWithArtwork(v, title, medium).artworkType);
      t.formData.artType == SimilarArtwork(title, medium)
      && t == form.(formData := InquiryModal.Set(form.formData, InquiryModal.ArtType, SimilarArtwork(title, medium)))
  {
  }

  /**
   * A plain inquiry hands the dialog an empty art type, which its effect
   * ignores: the form keeps whatever art type it held, such as one
   * prefilled by an earlier "commission similar".
   */
  lemma PlainInquiryKeepsFormArtType(v: AppView, form: InquiryModal.ModalState)
    ensures InquiryModal.WithInitialArtType(form, InquireClicked(v).artworkType) == form
    ensures InquiryModal.WithInitialArtType(form, ModalClosed(v).artworkType) == form
  {
  }

  /** The `App` component's three state fields. */
  class AppState {
    var isInquiryModalOpen: bool
    var isAdminDashboardOpen: bool
    var artworkType: string

    function View(): AppView
      reads this
    {
      AppView(isInquiryModalOpen, isAdminDashboardOpen, artworkType)
    }

    constructor ()
      ensures View() == InitialView
    {
      isInquiryModalOpen := false;
      isAdminDashboardOpen := false;
      artworkType := "";
    }

    method HandleKeyDown(e: KeyEvent)
      modifies this
      ensures View() == KeyPressed(old(View()), e)
    {
      if (e.ctrlKey || e.metaKey) && e.shiftKey && e.key == "A" {
        isAdminDashboardOpen := true;
      }
    }

    method HandleInquireClick()
      modifies this
      ensures View() == InquireClicked(old(View()))
    {
      artworkType := "";
      isInquiryModalOpen := true;
    }

    method HandleInquireWithArtwork(title: string, medium: string)
      modifies this
      ensures View() == InquiredWithArtwork(old(View()), title, medium)
    {
      artworkType := medium + SimilarInfix + title + "\"";
      isInquiryModalOpen := true;
    }

    method HandleCloseModal()
      modifies this
      ensures View() == ModalClosed(old(View()))
    {
      isInquiryModalOpen := false;
      artworkType := "";
    }

    method HandleCloseAdminDashboard()
      modifies this
      ensures View() == AdminClosed(old(View()))
    {
      isAdminDashboardOpen := false;
    }
  }
}
