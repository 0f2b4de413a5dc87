/**
 * The page screen of the reader: a navigation state machine over a list of
 * page identifiers, with split pages (one wide page shown as two halves
 * while the device is portrait), the mapping from taps and swipes to
 * actions, the slider range, the extraction trigger of the container view
 * and the reaction to error codes.
 *
 * The state machine is given twice: as pure step functions (`JumpTo`,
 * `Perform`, `EnterSplit`) whose contracts state the navigation rules, and
 * as the class `ArchivePage`, whose methods change the state in place and
 * are proved to take exactly those steps. The calls to the page loader and
 * to the "clear new flag" service are recorded in ghost logs.
 *
 * Page positions are integers: the slider moves in steps of one, so the
 * rounding of the source's floating-point position is the identity here.
 */
module PageNavigation {
  import opened Wrappers
  import opened ViewModels

  /** Which part of a split page is on screen; `Off` when the page is not split. */
  datatype SplitPhase = Off | First | Last

  /** The half of a wide page that is shown. */
  datatype Half = Left | Right

  /** The direction of a page flip, passed on to the page loader. */
  datatype FlipAction = Next | Previous | Jump

  /** The two stored settings the state machine reads. */
  datatype Settings = Settings(splitPage: bool, priorityLeft: bool)

  /** One call of the page loader: which page, whether to split it, and why. */
  datatype LoadRequest = LoadRequest(page: string, split: bool, priorityLeft: bool, action: FlipAction)

  /** The navigation state: page index, split phase, shown half, hidden controls. */
  datatype NavState = NavState(index: int, phase: SplitPhase, half: Half, controlsHidden: bool)

  /** One transition: the new state, the page load it issues (if any), and whether it asks to clear the new flag. */
  datatype Step = Step(state: NavState, load: Option<LoadRequest>, clearFlag: bool)

  /** The actions the page screen dispatches into the application store. */
  datatype ArchiveAction = ExtractArchive(id: string) | Error(code: ErrorCode) | ResetState

  // ---------------------------------------------------------------------------
  // Range checks
  // ---------------------------------------------------------------------------

  /**
   * The range test of `jumpToPage` as written: when there is no page list it
   * tests against the range 0..<1, so index 0 passes although there is no
   * page to load (the force-unwrap that follows would trap).
   */
  function GuardAsWritten(pages: Option<seq<string>>, index: int): (r: bool)
    ensures pages.Some? ==> (r <==> 0 <= index < |pages.value|)
    ensures pages.None? ==> (r <==> index == 0)
  {
    0 <= index < (if pages.Some? then |pages.value| else 1)
  }

  /** The range test as intended: a page list exists and `index` is a position in it. */
  function InRange(pages: Option<seq<string>>, index: int): (r: bool)
    ensures r ==> pages.Some? && 0 <= index < |pages.value|
    ensures pages.Some? ==> (r <==> GuardAsWritten(pages, index))
    ensures pages.None? ==> !r
  {
    pages.Some? && 0 <= index < |pages.value|
  }

  /** The index invariant: once a non-empty page list exists, the index is a position in it. */
  predicate IndexOk(pages: Option<seq<string>>, index: int) {
    pages.Some? && pages.value != [] ==> 0 <= index < |pages.value|
  }

  /**
   * With no page list, the slider offers position 0 and the as-written guard
   * lets a jump to it through, although there is no page 0 to load.
   */
  lemma MissingPagesPassGuard()
    ensures SliderRange(None).0 <= 0 <= SliderRange(None).1
    ensures GuardAsWritten(None, 0)
    ensures !InRange(None, 0)
  {
  }

  // ---------------------------------------------------------------------------
  // The step functions
  // ---------------------------------------------------------------------------

  /** Whether an action only moves within the current split page. */
  predicate WithinSplit(s: NavState, isPortrait: bool, action: FlipAction) {
    isPortrait && ((s.phase == First && action == Next) || (s.phase == Last && action == Previous))
  }

  /** Move to the second half of a split page (`nextInternalPage`). */
  function SplitForward(s: NavState, priorityLeft: bool): (r: NavState)
    ensures r.index == s.index && r.controlsHidden == s.controlsHidden
    ensures r.phase == Last && (r.half == Right <==> priorityLeft)
  {
    s.(phase := Last, half := if priorityLeft then Right else Left)
  }

  /** Move back to the first half of a split page (`previousInternalPage`). */
  function SplitBackward(s: NavState, priorityLeft: bool): (r: NavState)
    ensures r.index == s.index && r.controlsHidden == s.controlsHidden
    ensures r.phase == First && (r.half == Left <==> priorityLeft)
  {
    s.(phase := First, half := if priorityLeft then Left else Right)
  }

  /**
   * Enter a split page (`jumpToInternalPage`): forwards or by a jump it starts
   * at the first half, backwards at the last half.
   */
  function EnterSplit(s: NavState, action: FlipAction, priorityLeft: bool): (r: NavState)
    ensures r.index == s.index && r.controlsHidden == s.controlsHidden
    ensures action != Previous ==> r.phase == First && (r.half == Left <==> priorityLeft)
    ensures action == Previous ==> r.phase == Last && (r.half == Right <==> priorityLeft)
  {
    match action
    case Next | Jump => s.(phase := First, half := if priorityLeft then Left else Right)
    case Previous => s.(phase := Last, half := if priorityLeft then Right else Left)
  }

  /**
   * `jumpToPage(page, action)`: the step the state machine takes when asked to
   * go to `page`.
   */
  function JumpTo(s: NavState, pages: Option<seq<string>>, settings: Settings,
                  isPortrait: bool, page: int, action: FlipAction): (r: Step)
    // Forward within a split page: second half, same index, nothing loaded.
    ensures isPortrait && s.phase == First && action == Next ==>
      && r.state == s.(phase := Last, half := if settings.priorityLeft then Right else Left)
      && r.load == None && !r.clearFlag
    // Backward within a split page: first half, same index, nothing loaded.
    ensures isPortrait && s.phase == Last && action == Previous ==>
      && r.state == s.(phase := First, half := if settings.priorityLeft then Left else Right)
      && r.load == None && !r.clearFlag
    // Every other case resets the phase before the range is checked.
    ensures !WithinSplit(s, isPortrait, action) ==>
      r.state.phase == Off && r.state.half == s.half && r.state.controlsHidden == s.controlsHidden
    // A target outside the page list changes nothing else.
    ensures !WithinSplit(s, isPortrait, action) && !InRange(pages, page) ==>
      r.state.index == s.index && r.load == None && !r.clearFlag
    // A target inside the page list becomes the index, and its page is loaded once.
    ensures !WithinSplit(s, isPortrait, action) && InRange(pages, page) ==>
      && r.state.index == page
      && r.load == Some(LoadRequest(pages.value[page], settings.splitPage && isPortrait,
                                    settings.priorityLeft, action))
    // Landing on the last page, and only that, asks to clear the new flag.
    ensures r.clearFlag <==>
      !WithinSplit(s, isPortrait, action) && InRange(pages, page) && page == |pages.value| - 1
    ensures IndexOk(pages, s.index) ==> IndexOk(pages, r.state.index)
    ensures r.load.Some? ==> pages.Some? && r.load.value.page == pages.value[r.state.index]
    ensures r.clearFlag ==> r.load.Some?
  {
    if isPortrait && s.phase == First && action == Next then
      Step(SplitForward(s, settings.priorityLeft), None, false)
    else if isPortrait && s.phase == Last && action == Previous then
      Step(SplitBackward(s, settings.priorityLeft), None, false)
    else
      var reset := s.(phase := Off);
      if InRange(pages, page) then
        Step(reset.(index := page),
             Some(LoadRequest(pages.value[page], settings.splitPage && isPortrait,
                              settings.priorityLeft, action)),
             page == |pages.value| - 1)
      else
        Step(reset, None, false)
  }

  // ---------------------------------------------------------------------------
  // Tap and swipe bindings
  // ---------------------------------------------------------------------------

  /** The three page controls a tap zone or swipe direction can be bound to. */
  datatype PageControl = NextControl | PreviousControl | Navigation

  /**
   * The stored string of each control. The declaration of the controls is not
   * part of this model; only the fact that the three strings differ matters.
   */
  function RawValue(c: PageControl): string {
    match c
    case NextControl => "next"
    case PreviousControl => "previous"
    case Navigation => "navigation"
  }

  /** The `switch` of `performAction`: which control a stored string names, if any. */
  function Resolve(raw: string): (r: Option<PageControl>)
    ensures forall c :: raw == RawValue(c) <==> r == Some(c)
  {
    if raw == RawValue(NextControl) then Some(NextControl)
    else if raw == RawValue(PreviousControl) then Some(PreviousControl)
    else if raw == RawValue(Navigation) then Some(Navigation)
    else None
  }

  /**
   * `performAction(raw)`: next and previous flip one page, navigation only
   * toggles the controls, anything else changes nothing.
   */
  function Perform(s: NavState, pages: Option<seq<string>>, settings: Settings,
                   isPortrait: bool, raw: string): (r: Step)
    ensures Resolve(raw) == Some(NextControl) ==>
      r == JumpTo(s, pages, settings, isPortrait, s.index + 1, Next)
    ensures Resolve(raw) == Some(PreviousControl) ==>
      r == JumpTo(s, pages, settings, isPortrait, s.index - 1, Previous)
    ensures Resolve(raw) == Some(Navigation) ==>
      r == Step(s.(controlsHidden := !s.controlsHidden), None, false)
    ensures Resolve(raw) == None ==> r == Step(s, None, false)
    ensures IndexOk(pages, s.index) ==> IndexOk(pages, r.state.index)
    ensures r.load.Some? ==> pages.Some? && r.load.value.page in pages.value
    ensures r.clearFlag ==> r.load.Some?
  {
    match Resolve(raw)
    case Some(NextControl) => JumpTo(s, pages, settings, isPortrait, s.index + 1, Next)
    case Some(PreviousControl) => JumpTo(s, pages, settings, isPortrait, s.index - 1, Previous)
    case Some(Navigation) => Step(s.(controlsHidden := !s.controlsHidden), None, false)
    case None => Step(s, None, false)
  }

  /** The five stored bindings: one per tap zone and one per swipe direction. */
  datatype Bindings = Bindings(tapLeft: string, tapMiddle: string, tapRight: string,
                               swipeLeft: string, swipeRight: string)

  /** A tap in one of the three zones, or a finished drag with its horizontal translation. */
  datatype Gesture = TapLeft | TapMiddle | TapRight | Drag(width: int)

  /** The bindings a fresh installation starts with. */
  function DefaultBindings(): (b: Bindings)
    ensures Resolve(b.tapLeft) == Some(NextControl)
    ensures Resolve(b.tapMiddle) == Some(Navigation)
    ensures Resolve(b.tapRight) == Some(PreviousControl)
    ensures Resolve(b.swipeLeft) == Some(NextControl)
    ensures Resolve(b.swipeRight) == Some(PreviousControl)
  {
    Bindings(RawValue(NextControl), RawValue(Navigation), RawValue(PreviousControl),
             RawValue(NextControl), RawValue(PreviousControl))
  }

  /**
   * The stored string a gesture hands to `performAction`: each tap zone its
   * own binding; a drag to the left the swipe-left binding, to the right the
   * swipe-right binding, and a drag with no horizontal movement nothing.
   */
  function BindingFor(b: Bindings, g: Gesture): (r: Option<string>)
    ensures r.None? <==> g == Drag(0)
    ensures g.Drag? && g.width < 0 ==> r == Some(b.swipeLeft)
    ensures g.Drag? && g.width > 0 ==> r == Some(b.swipeRight)
    ensures !g.Drag? ==> r == Some(if g == TapLeft then b.tapLeft
                                   else if g == TapMiddle then b.tapMiddle
                                   else b.tapRight)
  {
    match g
    case TapLeft => Some(b.tapLeft)
    case TapMiddle => Some(b.tapMiddle)
    case TapRight => Some(b.tapRight)
    case Drag(width) =>
      if width < 0 then Some(b.swipeLeft)
      else if width > 0 then Some(b.swipeRight)
      else None
  }

  // ---------------------------------------------------------------------------
  // Slider, container and errors
  // ---------------------------------------------------------------------------

  /**
   * `getSliderRange`: the closed range of slider positions. A missing page
   * list counts as two pages; an empty list would make the upper bound -1,
   * which a closed range refuses, so callers must not ask for it.
   */
  function SliderRange(pages: Option<seq<string>>): (r: (int, int))
    requires pages != Some([])
    ensures r.0 == 0 && r.0 <= r.1
    ensures pages.None? ==> r.1 == 1
    ensures pages.Some? ==> forall i :: r.0 <= i <= r.1 <==> InRange(pages, i)
  {
    (0, (if pages.Some? then |pages.value| else 2) - 1)
  }

  /**
   * `ArchivePageContainer.load`: on appearing, the container asks the store to
   * extract the archive exactly when its page list is absent or empty.
   */
  function ContainerLoad(archivePages: map<string, seq<string>>, itemId: string): (r: Option<ArchiveAction>)
    ensures r.Some? <==> itemId !in archivePages || archivePages[itemId] == []
    ensures r.Some? ==> r.value == ExtractArchive(itemId)
  {
    if itemId !in archivePages || archivePages[itemId] == [] then Some(ExtractArchive(itemId)) else None
  }

  /** What the screen does about an error: the notice it shows and the action it dispatches. */
  datatype ErrorResponse = ErrorResponse(subtitleKey: string, dispatch: ArchiveAction)

  /**
   * `handleError`: an extraction or page-fetch error shows its notice and
   * resets the archive state; no error, or any other error, does nothing.
   */
  function HandleError(errorCode: Option<ErrorCode>): (r: Option<ErrorResponse>)
    ensures r.Some? <==> errorCode == Some(ArchiveExtractError) || errorCode == Some(ArchiveFetchPageError)
    ensures r.Some? ==> r.value.dispatch == ResetState
    ensures errorCode == Some(ArchiveExtractError) ==> r.value.subtitleKey == "error.extract"
    ensures errorCode == Some(ArchiveFetchPageError) ==> r.value.subtitleKey == "error.load.page"
  {
    match errorCode
    case Some(ArchiveExtractError) => Some(ErrorResponse("error.extract", ResetState))
    case Some(ArchiveFetchPageError) => Some(ErrorResponse("error.load.page", ResetState))
    case _ => None
  }

  // ---------------------------------------------------------------------------
  // Reading sessions
  // ---------------------------------------------------------------------------

  /** Every logged load is of a page of the list. */
  predicate LoadsFrom(pages: Option<seq<string>>, loads: seq<LoadRequest>) {
    forall r :: r in loads ==> pages.Some? && r.page in pages.value
  }

  /** The page load a step issues, as a log entry. */
  function LoadsOf(st: Step): seq<LoadRequest> {
    if st.load.Some? then [st.load.value] else []
  }

  /** A slider position the slider can be released at: one inside `getSliderRange`. */
  predicate SliderOk(pages: Option<seq<string>>, value: int) {
    pages != Some([]) && SliderRange(pages).0 <= value <= SliderRange(pages).1
  }

  /**
   * Releasing the slider at `value`: the slider binding has already written
   * the position into the index, which is then jumped to with action jump.
   * The index ends at `value` whether or not a page is loaded, and the phase
   * ends off.
   */
  function Release(s: NavState, pages: Option<seq<string>>, settings: Settings,
                   isPortrait: bool, value: int): (r: Step)
    ensures r.state.index == value && r.state.phase == Off
    ensures r.state.half == s.half && r.state.controlsHidden == s.controlsHidden
    ensures InRange(pages, value) ==>
      r.load == Some(LoadRequest(pages.value[value], settings.splitPage && isPortrait,
                                 settings.priorityLeft, Jump))
    ensures !InRange(pages, value) ==> r.load == None
    ensures r.clearFlag <==> InRange(pages, value) && value == |pages.value| - 1
    ensures SliderOk(pages, value) ==> IndexOk(pages, r.state.index)
  {
    assert !WithinSplit(s.(index := value), isPortrait, Jump);
    JumpTo(s.(index := value), pages, settings, isPortrait, value, Jump)
  }

  /**
   * One input of a session, with the orientation at that moment: a bound
   * control string handed to `performAction`, or a slider release.
   */
  datatype Input =
    | ControlInput(raw: string, isPortrait: bool)
    | SliderInput(value: int, isPortrait: bool)

  /** The step an input takes. */
  function InputStep(s: NavState, pages: Option<seq<string>>, settings: Settings, input: Input): Step {
    match input
    case ControlInput(raw, isPortrait) => Perform(s, pages, settings, isPortrait, raw)
    case SliderInput(value, isPortrait) => Release(s, pages, settings, isPortrait, value)
  }

  /** Whether every slider release of a session lies inside the slider range. */
  predicate SlidersOk(pages: Option<seq<string>>, inputs: seq<Input>) {
    forall i :: i in inputs && i.SliderInput? ==> SliderOk(pages, i.value)
  }

  /** The outcome of a session: the final state, every page load, and the number of clear-flag requests. */
  datatype Trace = Trace(state: NavState, loads: seq<LoadRequest>, clears: nat)

  /** A whole session: the inputs performed one after another. */
  function Replay(s: NavState, pages: Option<seq<string>>, settings: Settings, inputs: seq<Input>): Trace
    decreases |inputs|
  {
    if inputs == [] then Trace(s, [], 0)
    else
      var st := InputStep(s, pages, settings, inputs[0]);
      var rest := Replay(st.state, pages, settings, inputs[1..]);
      Trace(rest.state, LoadsOf(st) + rest.loads, (if st.clearFlag then 1 else 0) + rest.clears)
  }

  /**
   * Through any session of bound controls and slider releases inside the
   * slider range, the index stays a position of the page list, every page
   * loaded is one of its pages, and every clear-flag request comes with a
   * page load.
   */
  lemma {:induction false} ReplayKeepsInvariant(s: NavState, pages: Option<seq<string>>,
                                                settings: Settings, inputs: seq<Input>)
    requires IndexOk(pages, s.index)
    requires SlidersOk(pages, inputs)
    ensures IndexOk(pages, Replay(s, pages, settings, inputs).state.index)
    ensures LoadsFrom(pages, Replay(s, pages, settings, inputs).loads)
    ensures Replay(s, pages, settings, inputs).clears <= |Replay(s, pages, settings, inputs).loads|
    decreases |inputs|
  {
    if inputs != [] {
      var st := InputStep(s, pages, settings, inputs[0]);
      assert inputs[0] in inputs;
      assert IndexOk(pages, st.state.index);
      assert LoadsFrom(pages, LoadsOf(st));
      assert st.clearFlag ==> |LoadsOf(st)| == 1;
      assert SlidersOk(pages, inputs[1..]) by {
        forall i | i in inputs[1..] ensures i in inputs {
        }
      }
      ReplayKeepsInvariant(st.state, pages, settings, inputs[1..]);
      var rest := Replay(st.state, pages, settings, inputs[1..]);
      assert Replay(s, pages, settings, inputs)
          == Trace(rest.state, LoadsOf(st) + rest.loads, (if st.clearFlag then 1 else 0) + rest.clears);
    }
  }

  /**
   * In `ArchivePage.swift` no bound control and no slider release leaves
   * phase off: only `EnterSplit`, which nothing in the screen calls, starts a split
   * page. The page loader, which may enter a split itself, is a recorded call
   * here and has no effect on the state.
   */
  lemma {:induction false} ControlsStayOff(s: NavState, pages: Option<seq<string>>,
                                           settings: Settings, inputs: seq<Input>)
    requires s.phase == Off
    ensures Replay(s, pages, settings, inputs).state.phase == Off
    decreases |inputs|
  {
    if inputs != [] {
      var st := InputStep(s, pages, settings, inputs[0]);
      ControlsStayOff(st.state, pages, settings, inputs[1..]);
    }
  }

  /**
   * The split-page walk, portrait with split pages on and the left half first:
   * page 2 entered forwards shows its left half; next shows its right half
   * without loading; next again goes to page 3, loads it split, and resets the
   * phase until the loader enters the split again. Page 3 asks to clear the
   * new flag exactly when it is the last page.
   */
  lemma SplitWalk(pages: seq<string>, hidden: bool, h: Half)
    requires |pages| > 3
    ensures var settings := Settings(true, true);
      var s1 := EnterSplit(NavState(2, Off, h, hidden), Next, true);
      var st2 := Perform(s1, Some(pages), settings, true, RawValue(NextControl));
      var st3 := Perform(st2.state, Some(pages), settings, true, RawValue(NextControl));
      && s1 == NavState(2, First, Left, hidden)
      && st2 == Step(NavState(2, Last, Right, hidden), None, false)
      && st3 == Step(NavState(3, Off, Right, hidden), Some(LoadRequest(pages[3], true, true, Next)), |pages| == 4)
  {
  }

  // ---------------------------------------------------------------------------
  // The page screen
  // ---------------------------------------------------------------------------

  /**
   * The page screen and the mutable part of its page model. The archive item
   * and the page list are fixed for the life of the screen; the settings and
   * the orientation are read when an action arrives, so they are parameters.
   */
  class ArchivePage {
    const item: ArchiveItem
    const pages: Option<seq<string>>

    var currentIndex: int
    var phase: SplitPhase
    var shownHalf: Half
    var controlsHidden: bool

    /** Every call of the page loader, in order. */
    ghost var loads: seq<LoadRequest>
    /** Every archive id the screen asked to clear the new flag of, in order. */
    ghost var clearRequests: seq<string>

    ghost function State(): NavState
      reads this
    {
      NavState(currentIndex, phase, shownHalf, controlsHidden)
    }

    ghost predicate Valid()
      reads this
    {
      && IndexOk(pages, currentIndex)
      && LoadsFrom(pages, loads)
      && (forall k :: 0 <= k < |clearRequests| ==> clearRequests[k] == item.id)
    }

    /** The screen took step `st`: its state is the step's, and the step's calls were appended to the logs. */
    twostate predicate Took(st: Step)
      reads this
    {
      && State() == st.state
      && loads == old(loads) + LoadsOf(st)
      && clearRequests == old(clearRequests) + (if st.clearFlag then [item.id] else [])
    }

    /**
     * A new screen loads its start image. The page loader's initial state is
     * not modelled; it is assumed to be index 0 with no split page, and the
     * shown half and hidden flag are parameters. The start image is page 0
     * when there is one, which is also the last page of a one-page archive.
     */
    constructor (item: ArchiveItem, pages: Option<seq<string>>, half: Half, hidden: bool,
                 isPortrait: bool, settings: Settings)
      ensures Valid()
      ensures this.item == item && this.pages == pages
      ensures currentIndex == 0 && phase == Off && shownHalf == half && controlsHidden == hidden
      ensures loads == if pages.Some? && pages.value != [] then
                         [LoadRequest(pages.value[0], settings.splitPage && isPortrait, settings.priorityLeft, Next)]
                       else []
      ensures clearRequests == if pages.Some? && |pages.value| == 1 then [item.id] else []
    {
      this.item := item;
      this.pages := pages;
      currentIndex := 0;
      phase := Off;
      shownHalf := half;
      controlsHidden := hidden;
      loads := [];
      clearRequests := [];
      new;
      LoadStartImage(isPortrait, settings);
    }

    /** `loadStartImage`: jump forwards to the current index, only when a page list exists. */
    method LoadStartImage(isPortrait: bool, settings: Settings)
      requires Valid()
      modifies this
      ensures Valid()
      ensures pages.Some? ==> Took(JumpTo(old(State()), pages, settings, isPortrait, old(currentIndex), Next))
      ensures pages.None? ==> Took(Step(old(State()), None, false))
    {
      if pages.Some? {
        JumpToPage(currentIndex, Next, isPortrait, settings);
      }
    }

    /** `nextInternalPage`: show the second half of the split page. */
    method NextInternalPage(settings: Settings)
      requires Valid()
      modifies this
      ensures Valid()
      ensures phase == Last && shownHalf == (if settings.priorityLeft then Right else Left)
      ensures currentIndex == old(currentIndex) && controlsHidden == old(controlsHidden)
      ensures loads == old(loads) && clearRequests == old(clearRequests)
    {
      if settings.priorityLeft {
        shownHalf := Right;
      } else {
        shownHalf := Left;
      }
      phase := Last;
    }

    /** `previousInternalPage`: show the first half of the split page again. */
    method PreviousInternalPage(settings: Settings)
      requires Valid()
      modifies this
      ensures Valid()
      ensures phase == First && shownHalf == (if settings.priorityLeft then Left else Right)
      ensures currentIndex == old(currentIndex) && controlsHidden == old(controlsHidden)
      ensures loads == old(loads) && clearRequests == old(clearRequests)
    {
      if settings.priorityLeft {
        shownHalf := Left;
      } else {
        shownHalf := Right;
      }
      phase := First;
    }

    /** `jumpToInternalPage`: enter a split page at the half that fits the direction of travel. */
    method JumpToInternalPage(action: FlipAction, settings: Settings)
      requires Valid()
      modifies this
      ensures Valid()
      ensures action != Previous ==> phase == First && (shownHalf == Left <==> settings.priorityLeft)
      ensures action == Previous ==> phase == Last && (shownHalf == Right <==> settings.priorityLeft)
      ensures currentIndex == old(currentIndex) && controlsHidden == old(controlsHidden)
      ensures loads == old(loads) && clearRequests == old(clearRequests)
      ensures State() == EnterSplit(old(State()), action, settings.priorityLeft)
    {
      match action
      case Next | Jump =>
        if settings.priorityLeft {
          shownHalf := Left;
        } else {
          shownHalf := Right;
        }
        phase := First;
      case Previous =>
        if settings.priorityLeft {
          shownHalf := Right;
        } else {
          shownHalf := Left;
        }
        phase := Last;
    }

    /** `jumpToPage(page, action)`: takes the step `JumpTo` describes. */
    method JumpToPage(page: int, action: FlipAction, isPortrait: bool, settings: Settings)
      requires Valid()
      modifies this
      ensures Valid()
      ensures Took(JumpTo(old(State()), pages, settings, isPortrait, page, action))
    {
      if isPortrait {
        if phase == First && action == Next {
          NextInternalPage(settings);
          return;
        } else if phase == Last && action == Previous {
          PreviousInternalPage(settings);
          return;
        }
      }
      phase := Off;
      var index := page;
      if pages.Some? && 0 <= index < |pages.value| {
        loads := loads + [LoadRequest(pages.value[index], settings.splitPage && isPortrait,
                                      settings.priorityLeft, action)];
        currentIndex := index;
        if index == |pages.value| - 1 {
          clearRequests := clearRequests + [item.id];
        }
      }
    }

    /** `nextPage`: jump forwards to the following index. */
    method NextPage(isPortrait: bool, settings: Settings)
      requires Valid()
      modifies this
      ensures Valid()
      ensures Took(JumpTo(old(State()), pages, settings, isPortrait, old(currentIndex) + 1, Next))
    {
      JumpToPage(currentIndex + 1, Next, isPortrait, settings);
    }

    /** `previousPage`: jump backwards to the preceding index. */
    method PreviousPage(isPortrait: bool, settings: Settings)
      requires Valid()
      modifies this
      ensures Valid()
      ensures Took(JumpTo(old(State()), pages, settings, isPortrait, old(currentIndex) - 1, Previous))
    {
      JumpToPage(currentIndex - 1, Previous, isPortrait, settings);
    }

    /** `performAction(raw)`: takes the step `Perform` describes. */
    method PerformAction(raw: string, isPortrait: bool, settings: Settings)
      requires Valid()
      modifies this
      ensures Valid()
      ensures Took(Perform(old(State()), pages, settings, isPortrait, raw))
    {
      match Resolve(raw)
      case Some(NextControl) =>
        NextPage(isPortrait, settings);
      case Some(PreviousControl) =>
        PreviousPage(isPortrait, settings);
      case Some(Navigation) =>
        controlsHidden := !controlsHidden;
      case None =>
    }

    /** A tap or a finished drag: performs the control string it is bound to, if any. */
    method HandleGesture(g: Gesture, bindings: Bindings, isPortrait: bool, settings: Settings)
      requires Valid()
      modifies this
      ensures Valid()
      ensures BindingFor(bindings, g).None? ==> Took(Step(old(State()), None, false))
      ensures BindingFor(bindings, g).Some? ==>
        Took(Perform(old(State()), pages, settings, isPortrait, BindingFor(bindings, g).value))
    {
      var raw := BindingFor(bindings, g);
      if raw.Some? {
        PerformAction(raw.value, isPortrait, settings);
      }
    }

    /**
     * Releasing the slider: the slider has already written its position into
     * the index, which is then jumped to.
     */
    method SliderRelease(value: int, isPortrait: bool, settings: Settings)
      requires Valid()
      requires SliderOk(pages, value)
      modifies this
      ensures Valid()
      ensures Took(Release(old(State()), pages, settings, isPortrait, value))
    {
      currentIndex := value;
      JumpToPage(currentIndex, Jump, isPortrait, settings);
    }
  }
}
