/**
 * Notifications ("toasts"): the provider's list of live toasts, the per-toast card with its
 * entrance/leave flags and auto-close timer, the card's style classes, and the context lookup.
 */
module Toasts {
  import opened Wrappers
  import Text
  import Sequences

  /** How long a toast stays up when its creator gives no duration, in milliseconds. */
  const DefaultDuration: int := 5000

  /** Message thrown by `useToast` outside a provider. */
  const NoProviderMessage: string := "useToast must be used within a ToastProvider"

  /**
   * One entry of the provider's list. `kind` is the toast type; it is kept as the raw string the
   * caller passed, so that a type outside success/error/warning/info reaches the gray default.
   */
  datatype ToastItem = ToastItem(id: string, message: string, kind: string)

  /** The list after `removeToast(id)`: every toast whose id differs, in the original order. */
  function WithoutId(toasts: seq<ToastItem>, id: string): seq<ToastItem> {
    Sequences.Filter((t: ToastItem) => t.id != id, toasts)
  }

  /** `removeToast(id)` drops exactly the toasts carrying `id` and keeps every other one, each as often as before, in order. */
  lemma WithoutIdSpec(toasts: seq<ToastItem>, id: string)
    ensures forall t :: t in WithoutId(toasts, id) <==> t in toasts && t.id != id
    ensures Sequences.IsSubsequence(WithoutId(toasts, id), toasts)
    ensures forall t :: multiset(WithoutId(toasts, id))[t] == if t.id != id then multiset(toasts)[t] else 0
  {
    Sequences.FilterCounts((t: ToastItem) => t.id != id, toasts);
    Sequences.FilterMembers((t: ToastItem) => t.id != id, toasts);
    Sequences.FilterIsSubsequence((t: ToastItem) => t.id != id, toasts);
  }

  /** Removing an id that no toast carries leaves the list as it was. */
  lemma WithoutAbsentId(toasts: seq<ToastItem>, id: string)
    requires forall i :: 0 <= i < |toasts| ==> toasts[i].id != id
    ensures WithoutId(toasts, id) == toasts
  {
    Sequences.FilterKeepsAll((t: ToastItem) => t.id != id, toasts);
  }

  /** Showing a toast under a fresh id and then removing that id restores the list. */
  lemma ShowThenRemove(toasts: seq<ToastItem>, id: string, message: string, kind: string)
    requires forall i :: 0 <= i < |toasts| ==> toasts[i].id != id
    ensures WithoutId(toasts + [ToastItem(id, message, kind)], id) == toasts
  {
    var keep := (t: ToastItem) => t.id != id;
    Sequences.FilterConcat(keep, toasts, [ToastItem(id, message, kind)]);
    WithoutAbsentId(toasts, id);
    assert Sequences.Filter(keep, [ToastItem(id, message, kind)]) == [];
  }

  /** `ToastProvider`: owns the list of toasts on screen, in the order they were shown. */
  class ToastProvider {
    var toasts: seq<ToastItem>

    constructor ()
      ensures toasts == []
    {
      toasts := [];
    }

    /** `showToast`: appends one toast at the end; `id` stands for the random id the source draws. */
    method ShowToast(id: string, message: string, kind: string)
      modifies this
      ensures toasts == old(toasts) + [ToastItem(id, message, kind)]
    {
      toasts := toasts + [ToastItem(id, message, kind)];
    }

    /** `removeToast`: filters out every toast with the given id. */
    method RemoveToast(id: string)
      modifies this
      ensures toasts == WithoutId(old(toasts), id)
    {
      toasts := WithoutId(toasts, id);
    }
  }

  /**
   * `useToast`: the nearest provider, or the error it throws when there is none.
   * `context` is `None` when no provider encloses the caller.
   */
  function UseToast(context: Option<ToastProvider>): (r: Result<ToastProvider>)
    ensures r.Success? <==> context.Some?
    ensures r.Success? ==> r.value == context.value
    ensures r.Failure? ==> r.error == NoProviderMessage
  {
    match context
    case Some(p) => Success(p)
    case None => Failure(NoProviderMessage)
  }

  /** The classes every toast carries, whatever its type and state. */
  const BaseClasses: seq<string> :=
    ["flex", "items-center", "p-4", "mb-3", "rounded-lg", "shadow-lg", "border-l-4", "backdrop-blur-sm"]

  /** The transition classes, present in both animation states. */
  const TransitionClasses: seq<string> := ["transform", "transition-all", "duration-300", "ease-in-out"]

  const OnScreenClasses: seq<string> := ["translate-x-0", "opacity-100"]
  const OffScreenClasses: seq<string> := ["translate-x-full", "opacity-0"]
  const GrayPalette: seq<string> := ["bg-gray-50", "border-gray-400", "text-gray-800"]

  /** The colour classes of a toast type; a type the switch does not know falls back to gray. */
  function Palette(kind: string): seq<string> {
    match kind
    case "success" => ["bg-green-50", "border-green-400", "text-green-800"]
    case "error" => ["bg-red-50", "border-red-400", "text-red-800"]
    case "warning" => ["bg-yellow-50", "border-yellow-400", "text-yellow-800"]
    case "info" => ["bg-blue-50", "border-blue-400", "text-blue-800"]
    case _ => GrayPalette
  }

  /** The class list of a toast card: base styles, then animation, then colours. */
  function ToastClasses(kind: string, isVisible: bool, isLeaving: bool): seq<string> {
    BaseClasses + TransitionClasses
      + (if isVisible && !isLeaving then OnScreenClasses else OffScreenClasses)
      + Palette(kind)
  }

  /**
   * `getToastStyles`: the `className` string, i.e. the class list joined by single spaces, as
   * the template literal of the source spells it out.
   */
  function GetToastStyles(kind: string, isVisible: bool, isLeaving: bool): string {
    Text.Join(ToastClasses(kind, isVisible, isLeaving), ' ')
  }

  predicate Spaceless(classes: seq<string>) {
    forall i :: 0 <= i < |classes| ==> ' ' !in classes[i]
  }

  lemma SpacelessConcat(a: seq<string>, b: seq<string>)
    requires Spaceless(a) && Spaceless(b)
    ensures Spaceless(a + b)
  {
    forall i | 0 <= i < |a + b| ensures ' ' !in (a + b)[i] {
      if i < |a| { assert (a + b)[i] == a[i]; } else { assert (a + b)[i] == b[i - |a|]; }
    }
  }

  /** No class name contains a space, so every class list here is a list of single tokens. */
  lemma ClassesSpaceless(kind: string, onScreen: bool)
    ensures Spaceless(BaseClasses + TransitionClasses + (if onScreen then OnScreenClasses else OffScreenClasses) + Palette(kind))
  {
    BaseSpaceless();
    AnimationSpaceless();
    PaletteSpaceless(kind);
    SpacelessConcat(BaseClasses, TransitionClasses);
    SpacelessConcat(BaseClasses + TransitionClasses, if onScreen then OnScreenClasses else OffScreenClasses);
    SpacelessConcat(BaseClasses + TransitionClasses + (if onScreen then OnScreenClasses else OffScreenClasses), Palette(kind));
  }

  lemma BaseSpaceless()
    ensures Spaceless(BaseClasses)
  {
    forall i | 0 <= i < |BaseClasses| ensures ' ' !in BaseClasses[i] {
      if i == 7 {
        assert BaseClasses[7] == "backdrop-blur-sm";
      }
    }
  }

  lemma AnimationSpaceless()
    ensures Spaceless(TransitionClasses) && Spaceless(OnScreenClasses) && Spaceless(OffScreenClasses)
  {
  }

  lemma PaletteSpaceless(kind: string)
    ensures Spaceless(Palette(kind))
  {
  }

  /**
   * What the browser reads from the style string: splitting it at spaces gives back the class
   * list, which starts with the base classes, puts the on-screen transform in exactly when the
   * toast is visible and not leaving, and ends with colours that depend on the type alone.
   */
  lemma ToastStylesClasses(kind: string, isVisible: bool, isLeaving: bool)
    ensures Text.Split(GetToastStyles(kind, isVisible, isLeaving), ' ') == ToastClasses(kind, isVisible, isLeaving)
    ensures ToastClasses(kind, isVisible, isLeaving)[..|BaseClasses|] == BaseClasses
    ensures ("translate-x-0" in ToastClasses(kind, isVisible, isLeaving)) <==> isVisible && !isLeaving
    ensures ("translate-x-full" in ToastClasses(kind, isVisible, isLeaving)) <==> !(isVisible && !isLeaving)
    ensures ToastClasses(kind, isVisible, isLeaving)[|BaseClasses| + |TransitionClasses| + 2..] == Palette(kind)
  {
    var classes := ToastClasses(kind, isVisible, isLeaving);
    ClassesSpaceless(kind, isVisible && !isLeaving);
    Text.SplitJoin(classes, ' ');
    TransformClass(kind, isVisible && !isLeaving);
  }

  /** Where the transform classes can appear: only in the animation part. */
  lemma TransformClass(kind: string, onScreen: bool)
    ensures var classes := BaseClasses + TransitionClasses + (if onScreen then OnScreenClasses else OffScreenClasses) + Palette(kind);
      && ("translate-x-0" in classes <==> onScreen)
      && ("translate-x-full" in classes <==> !onScreen)
  {
    var anim := if onScreen then OnScreenClasses else OffScreenClasses;
    assert "translate-x-0" !in Palette(kind) && "translate-x-full" !in Palette(kind);
    assert "translate-x-0" !in BaseClasses + TransitionClasses;
    assert "translate-x-full" !in BaseClasses + TransitionClasses;
    assert "translate-x-0" in anim <==> onScreen;
    assert "translate-x-full" in anim <==> !onScreen;
  }

  /** A type other than the four known ones gets the gray colour classes. */
  lemma UnknownKindIsGray(kind: string, isVisible: bool, isLeaving: bool)
    requires kind != "success" && kind != "error" && kind != "warning" && kind != "info"
    ensures "bg-gray-50" in ToastClasses(kind, isVisible, isLeaving)
    ensures Palette(kind) == GrayPalette
  {
    assert ToastClasses(kind, isVisible, isLeaving)[|ToastClasses(kind, isVisible, isLeaving)| - 3] == "bg-gray-50";
  }

  /**
   * One toast card (`Toast`): it enters after mounting, leaves when closed, and asks the provider
   * to remove it. The source's delays (50 ms to enter, 300 ms before removal) are not modelled:
   * each step happens at once.
   */
  class ToastCard {
    const id: string
    const message: string
    const kind: string
    const duration: int
    var isVisible: bool
    var isLeaving: bool
    /** Whether the mount effect started the auto-close timer. */
    var autoCloseScheduled: bool

    /** Mounting a card: hidden, not leaving, with the auto-close timer started iff `duration > 0`. */
    constructor (id: string, message: string, kind: string, duration: int := DefaultDuration)
      ensures this.id == id && this.message == message && this.kind == kind && this.duration == duration
      ensures !isVisible && !isLeaving
      ensures autoCloseScheduled <==> duration > 0
    {
      this.id := id;
      this.message := message;
      this.kind := kind;
      this.duration := duration;
      isVisible := false;
      isLeaving := false;
      autoCloseScheduled := duration > 0;
    }

    /** The entrance timer fires: the card becomes visible. */
    method Enter()
      modifies this
      ensures isVisible && isLeaving == old(isLeaving) && autoCloseScheduled == old(autoCloseScheduled)
    {
      isVisible := true;
    }

    /** `handleClose` (the close button, or the auto-close timer): mark leaving, then leave the list. */
    method HandleClose(provider: ToastProvider)
      modifies this, provider
      ensures isLeaving && isVisible == old(isVisible) && autoCloseScheduled == old(autoCloseScheduled)
      ensures provider.toasts == WithoutId(old(provider.toasts), id)
    {
      isLeaving := true;
      provider.RemoveToast(id);
    }

    /** The card's current `className`: on screen exactly while it is visible and not leaving. */
    function Styles(): (r: string)
      reads this
      ensures ("translate-x-0" in Text.Split(r, ' ')) <==> isVisible && !isLeaving
      ensures BaseClasses <= Text.Split(r, ' ')
    {
      ToastStylesClasses(kind, isVisible, isLeaving);
      GetToastStyles(kind, isVisible, isLeaving)
    }
  }
}
