/** D3DApp, the application shell: the window-message state machine, MSAA switching,
    the frame loop and the CPU side of the command-queue fence.

    Everything the shell calls outside itself (its own virtual OnResize, the game timer,
    the swap chain, Win32, the command queue) is recorded as a `Call` in the order the
    source makes it; what those calls do is not modelled. */
module D3dApplication {
  import opened D3dUtil

  datatype Option<T> = None | Some(value: T)

  /** Win32 constants the message handler compares against. */
  const WaInactive: nat := 0
  const SizeRestored: nat := 0
  const SizeMinimized: nat := 1
  const SizeMaximized: nat := 2
  const VkEscape: nat := 0x1B
  const VkF2: nat := 0x71
  const MncClose: nat := 1

  /** LOWORD and HIWORD of a message parameter. */
  function LoWord(v: nat): (w: nat)
    ensures w < 0x1_0000
  {
    v % 0x1_0000
  }

  function HiWord(v: nat): (w: nat)
    ensures w < 0x1_0000
  {
    (v / 0x1_0000) % 0x1_0000
  }

  /** LOWORD and HIWORD split a 32-bit parameter: the high word above the low word. */
  lemma WordsSplit(v: nat)
    requires v < 0x1_0000_0000
    ensures v == HiWord(v) * 0x1_0000 + LoWord(v)
  {
  }

  /** `(int)(short)w`: a 16-bit word read as a signed value, as GET_X_LPARAM and
      GET_Y_LPARAM do so that mouse positions left of or above the client area are negative. */
  function AsShort(w: nat): (s: int)
    requires w < 0x1_0000
    ensures -0x8000 <= s < 0x8000
    ensures s % 0x1_0000 == w
  {
    if w < 0x8000 then w else w - 0x1_0000
  }

  /** `(int)w`: the low 32 bits of a message parameter read as a signed 32-bit int, as the
      cast in the WM_KEYUP handler truncates the pointer-sized WPARAM. */
  function IntCast(w: nat): (i: int)
    ensures -0x8000_0000 <= i < 0x8000_0000
    ensures i % 0x1_0000_0000 == w % 0x1_0000_0000
  {
    var low := w % 0x1_0000_0000;
    if low < 0x8000_0000 then low else low - 0x1_0000_0000
  }

  /** The messages MsgProc distinguishes; every other message goes to DefWindowProc. */
  datatype Msg =
    | Activate(wParam: nat)                   // WM_ACTIVATE
    | Size(wParam: nat, lParam: nat)          // WM_SIZE
    | EnterSizeMove                           // WM_ENTERSIZEMOVE
    | ExitSizeMove                            // WM_EXITSIZEMOVE
    | Destroy                                 // WM_DESTROY
    | MenuChar                                // WM_MENUCHAR
    | GetMinMaxInfo                           // WM_GETMINMAXINFO
    | ButtonDown(wParam: nat, lParam: nat)    // WM_LBUTTONDOWN, WM_MBUTTONDOWN, WM_RBUTTONDOWN
    | ButtonUp(wParam: nat, lParam: nat)      // WM_LBUTTONUP, WM_MBUTTONUP, WM_RBUTTONUP
    | MouseMove(wParam: nat, lParam: nat)     // WM_MOUSEMOVE
    | KeyUp(wParam: nat)                      // WM_KEYUP
    | Unhandled(code: nat, wParam: nat, lParam: nat)

  /** A call out of the shell. */
  datatype Call =
    | OnResize
    | CreateSwapChain
    | TimerReset | TimerStart | TimerStop | TimerTick
    | PostQuitMessage(exitCode: int)
    | SetMinTrackSize(width: nat, height: nat)
    | OnMouseDown(btnState: nat, x: int, y: int)
    | OnMouseUp(btnState: nat, x: int, y: int)
    | OnMouseMove(btnState: nat, x: int, y: int)
    | DefWindowProc(msg: Msg)
    | CalculateFrameStats | Update | Draw
    | Sleep(milliseconds: nat)
    | Signal(fenceValue: nat)
    | SetEventOnCompletion(fenceValue: nat)
    | WaitForSingleObject

  /** What MsgProc returns: a value, or whatever DefWindowProc returned. */
  datatype LResult = Value(v: int) | FromDefWindowProc

  /** The part of the shell's state that messages change. */
  datatype WindowState = WindowState(
    appPaused: bool, minimized: bool, maximized: bool, resizing: bool,
    clientWidth: nat, clientHeight: nat, msaaState: bool)

  /** The outcome of one handled message. */
  datatype Transition = Transition(state: WindowState, calls: seq<Call>, result: LResult)

  lemma AppendAssoc(a: seq<Call>, b: seq<Call>, c: seq<Call>)
    ensures a + b + c == a + (b + c)
  {
  }

  lemma AppendEmpty(a: seq<Call>)
    ensures a + [] == a
  {
  }

  function Count(c: Call, cs: seq<Call>): (n: nat)
    ensures n <= |cs|
    ensures c !in cs ==> n == 0
  {
    if cs == [] then 0 else (if cs[0] == c then 1 else 0) + Count(c, cs[1..])
  }

  lemma {:induction false} CountAppend(c: Call, a: seq<Call>, b: seq<Call>)
    ensures Count(c, a + b) == Count(c, a) + Count(c, b)
  {
    if a == [] {
      assert a + b == b;
    } else {
      assert (a + b)[1..] == a[1..] + b;
      CountAppend(c, a[1..], b);
    }
  }

  /** Set4xMsaaState: only a change of setting recreates the swap chain and resizes. */
  function SetMsaa(s: WindowState, value: bool): (t: Transition)
    ensures t.state == s.(msaaState := value)
    ensures s.msaaState == value <==> t.calls == []
    ensures t.calls != [] ==> t.calls == [CreateSwapChain, OnResize]
  {
    if s.msaaState != value then Transition(s.(msaaState := value), [CreateSwapChain, OnResize], Value(0))
    else Transition(s, [], Value(0))
  }

  /** Asking for the current setting again does nothing: Set4xMsaaState is idempotent. */
  lemma SetMsaaIdempotent(s: WindowState, value: bool)
    ensures SetMsaa(SetMsaa(s, value).state, value) == Transition(SetMsaa(s, value).state, [], Value(0))
  {
  }

  /** WM_SIZE once a device exists: the flag updates and the resize decision. */
  function SizeWithDevice(s: WindowState, wParam: nat): (t: Transition)
    ensures t.result == Value(0)
    ensures t.state.clientWidth == s.clientWidth && t.state.clientHeight == s.clientHeight
    ensures t.state.resizing == s.resizing && t.state.msaaState == s.msaaState
    ensures t.calls == [] || t.calls == [OnResize]
    ensures wParam !in {SizeRestored, SizeMinimized, SizeMaximized} ==> t == Transition(s, [], Value(0))
  {
    if wParam == SizeMinimized then
      Transition(s.(appPaused := true, minimized := true, maximized := false), [], Value(0))
    else if wParam == SizeMaximized then
      Transition(s.(appPaused := false, minimized := false, maximized := true), [OnResize], Value(0))
    else if wParam == SizeRestored then
      if s.minimized then
        Transition(s.(appPaused := false, minimized := false), [OnResize], Value(0))
      else if s.maximized then
        Transition(s.(appPaused := false, maximized := false), [OnResize], Value(0))
      else if s.resizing then
        // Dragging the resize bars sends a stream of WM_SIZE; the resize waits for WM_EXITSIZEMOVE.
        Transition(s, [], Value(0))
      else
        // An API call such as SetWindowPos or SetFullscreenState.
        Transition(s, [OnResize], Value(0))
    else
      Transition(s, [], Value(0))
  }

  /** D3DApp::MsgProc as a transition over the window state. `hasDevice` says whether the
      Direct3D device has been created. */
  function HandleMessage(s: WindowState, hasDevice: bool, m: Msg): (t: Transition)
    ensures t.result == (if m.Unhandled? then FromDefWindowProc
                         else if m.MenuChar? then Value(MncClose * 0x1_0000) else Value(0))
    ensures !(m.Activate? || m.Size? || m.EnterSizeMove? || m.ExitSizeMove? || m.KeyUp?) ==> t.state == s
    ensures m.Size? ==> t.state.clientWidth == LoWord(m.lParam) && t.state.clientHeight == HiWord(m.lParam)
    ensures !m.Size? ==> t.state.clientWidth == s.clientWidth && t.state.clientHeight == s.clientHeight
  {
    match m
    case Activate(w) =>
      if LoWord(w) == WaInactive then Transition(s.(appPaused := true), [TimerStop], Value(0))
      else Transition(s.(appPaused := false), [TimerStart], Value(0))
    case Size(w, l) =>
      var sized := s.(clientWidth := LoWord(l), clientHeight := HiWord(l));
      if hasDevice then SizeWithDevice(sized, w) else Transition(sized, [], Value(0))
    case EnterSizeMove =>
      Transition(s.(appPaused := true, resizing := true), [TimerStop], Value(0))
    case ExitSizeMove =>
      Transition(s.(appPaused := false, resizing := false), [TimerStart, OnResize], Value(0))
    case Destroy =>
      Transition(s, [PostQuitMessage(0)], Value(0))
    case MenuChar =>
      // MAKELRESULT(0, MNC_CLOSE): no beep on Alt-Enter.
      Transition(s, [], Value(MncClose * 0x1_0000))
    case GetMinMaxInfo =>
      Transition(s, [SetMinTrackSize(200, 200)], Value(0))
    case ButtonDown(w, l) =>
      Transition(s, [OnMouseDown(w, AsShort(LoWord(l)), AsShort(HiWord(l)))], Value(0))
    case ButtonUp(w, l) =>
      Transition(s, [OnMouseUp(w, AsShort(LoWord(l)), AsShort(HiWord(l)))], Value(0))
    case MouseMove(w, l) =>
      Transition(s, [OnMouseMove(w, AsShort(LoWord(l)), AsShort(HiWord(l)))], Value(0))
    case KeyUp(w) =>
      if w == VkEscape then Transition(s, [PostQuitMessage(0)], Value(0))
      else if IntCast(w) == VkF2 then SetMsaa(s, !s.msaaState)
      else Transition(s, [], Value(0))
    case Unhandled(_, _, _) =>
      Transition(s, [DefWindowProc(m)], FromDefWindowProc)
  }

  /** A message never updates or draws, and reaches DefWindowProc exactly when MsgProc
      does not handle it. */
  lemma MessageCalls(s: WindowState, hasDevice: bool, m: Msg)
    ensures var t := HandleMessage(s, hasDevice, m);
      Update !in t.calls && Draw !in t.calls && (m.Unhandled? <==> DefWindowProc(m) in t.calls)
  {
  }

  /** WM_ACTIVATE pauses exactly when the low word says WA_INACTIVE, and stops or starts
      the timer to match; nothing else changes. */
  lemma ActivatePausesIffInactive(s: WindowState, hasDevice: bool, w: nat)
    ensures var t := HandleMessage(s, hasDevice, Activate(w));
      && (t.state.appPaused <==> LoWord(w) == WaInactive)
      && t.state == s.(appPaused := t.state.appPaused)
      && t.calls == (if LoWord(w) == WaInactive then [TimerStop] else [TimerStart])
  {
  }

  /** WM_SIZE always records the new client size; without a device nothing else happens. */
  lemma SizeRecordsDimensions(s: WindowState, hasDevice: bool, w: nat, l: nat)
    ensures var t := HandleMessage(s, hasDevice, Size(w, l));
      t.state.clientWidth == LoWord(l) && t.state.clientHeight == HiWord(l)
    ensures !hasDevice ==>
      HandleMessage(s, hasDevice, Size(w, l)) ==
      Transition(s.(clientWidth := LoWord(l), clientHeight := HiWord(l)), [], Value(0))
  {
  }

  /** SIZE_MINIMIZED pauses and does not resize; SIZE_MAXIMIZED unpauses and resizes once. */
  lemma MinimizeAndMaximize(s: WindowState, l: nat)
    ensures var t := HandleMessage(s, true, Size(SizeMinimized, l));
      t.state.appPaused && t.state.minimized && !t.state.maximized && Count(OnResize, t.calls) == 0
    ensures var t := HandleMessage(s, true, Size(SizeMaximized, l));
      !t.state.appPaused && !t.state.minimized && t.state.maximized && Count(OnResize, t.calls) == 1
  {
  }

  /** SIZE_RESTORED: leaving the minimised or maximised state unpauses and resizes once;
      during a drag of the resize bars nothing happens; otherwise it resizes once. */
  lemma RestoreCases(s: WindowState, l: nat)
    ensures var sized := s.(clientWidth := LoWord(l), clientHeight := HiWord(l));
      var t := HandleMessage(s, true, Size(SizeRestored, l));
      && (s.minimized ==> t.state == sized.(appPaused := false, minimized := false) && t.calls == [OnResize])
      && (!s.minimized && s.maximized ==> t.state == sized.(appPaused := false, maximized := false) && t.calls == [OnResize])
      && (!s.minimized && !s.maximized && s.resizing ==> t.state == sized && t.calls == [])
      && (!s.minimized && !s.maximized && !s.resizing ==> t.state == sized && t.calls == [OnResize])
  {
  }

  /** Grabbing the resize bars pauses; releasing them unpauses and resizes once. */
  lemma SizeMoveBracket(s: WindowState, hasDevice: bool)
    ensures var t := HandleMessage(s, hasDevice, EnterSizeMove);
      t.state.appPaused && t.state.resizing && Count(OnResize, t.calls) == 0
    ensures var t := HandleMessage(s, hasDevice, ExitSizeMove);
      !t.state.appPaused && !t.state.resizing && Count(OnResize, t.calls) == 1
  {
  }

  /** No message resizes more than once. */
  lemma {:induction false} AtMostOneResizePerMessage(s: WindowState, hasDevice: bool, m: Msg)
    ensures Count(OnResize, HandleMessage(s, hasDevice, m).calls) <= 1
  {
    var t := HandleMessage(s, hasDevice, m);
    assert |t.calls| <= 1 || t.calls == [TimerStart, OnResize]
      || t.calls == [CreateSwapChain, OnResize];
    if |t.calls| == 2 {
      assert t.calls[1..] == [OnResize];
      assert t.calls[1..][1..] == [];
    }
  }

  /** The window is never minimised and maximised at once: every message keeps it so. */
  lemma MinimizedMaximizedExclusive(s: WindowState, hasDevice: bool, m: Msg)
    requires !(s.minimized && s.maximized)
    ensures var t := HandleMessage(s, hasDevice, m); !(t.state.minimized && t.state.maximized)
  {
  }

  /** Only F2 changes the multisampling setting, and it toggles it. The F2 test compares
      the truncated `(int)wParam`, while the Escape test compares the whole parameter, so a
      key-up whose low 32 bits are VK_F2 toggles too. */
  lemma OnlyF2TogglesMsaa(s: WindowState, hasDevice: bool, m: Msg)
    ensures HandleMessage(s, hasDevice, m).state.msaaState != s.msaaState <==>
      m.KeyUp? && m.wParam % 0x1_0000_0000 == VkF2
    ensures HandleMessage(s, hasDevice, KeyUp(0x1_0000_0071)).state.msaaState != s.msaaState
    ensures HandleMessage(s, hasDevice, KeyUp(VkF2)).state.msaaState != s.msaaState
  {
  }

  /** The calls of one idle pass of the frame loop: tick the timer, then either run a
      frame (statistics, Update, Draw) or sleep 100 ms while paused. */
  function IdleTick(paused: bool): (cs: seq<Call>)
    ensures |cs| >= 2 && cs[0] == TimerTick
    ensures Update in cs <==> !paused
    ensures Draw in cs <==> !paused
  {
    [TimerTick] + if !paused then [CalculateFrameStats, Update, Draw] else [Sleep(100)]
  }

  /** An unpaused idle pass updates once and draws once. */
  lemma RunningTickCounts()
    ensures Count(Update, IdleTick(false)) == 1 && Count(Draw, IdleTick(false)) == 1
  {
    var cs := IdleTick(false);
    assert cs[1..] == [CalculateFrameStats, Update, Draw];
    assert cs[1..][1..] == [Update, Draw];
    assert cs[1..][1..][1..] == [Draw];
    assert cs[1..][1..][1..][1..] == [];
  }

  /** One result of PeekMessage: a message to dispatch, WM_QUIT, or an empty queue. */
  datatype PumpEvent = Posted(m: Msg) | Quit(exitCode: int) | QueueEmpty

  datatype EventOutcome = EventOutcome(state: WindowState, calls: seq<Call>, quit: Option<int>)

  /** One pass of the loop in Run: dispatch a message, stop at WM_QUIT, or run an idle pass. */
  function HandleEvent(s: WindowState, hasDevice: bool, e: PumpEvent): (o: EventOutcome)
    ensures o.quit.Some? <==> e.Quit?
    ensures e.Quit? ==> o == EventOutcome(s, [], Some(e.exitCode))
  {
    match e
    case Quit(code) => EventOutcome(s, [], Some(code))
    case QueueEmpty => EventOutcome(s, IdleTick(s.appPaused), None)
    case Posted(m) =>
      var t := HandleMessage(s, hasDevice, m);
      EventOutcome(t.state, t.calls, None)
  }

  datatype RunOutcome = RunOutcome(state: WindowState, calls: seq<Call>, exitCode: Option<int>)

  /** The frame loop of Run over a finite script of PeekMessage results, after the timer
      reset: it stops at WM_QUIT with its exit code, or when the script ends. */
  function Pump(s: WindowState, hasDevice: bool, events: seq<PumpEvent>): (o: RunOutcome)
    decreases |events|
  {
    if events == [] then RunOutcome(s, [], None)
    else
      var e := HandleEvent(s, hasDevice, events[0]);
      if e.quit.Some? then RunOutcome(s, [], e.quit)
      else
        var o := Pump(e.state, hasDevice, events[1..]);
        RunOutcome(o.state, e.calls + o.calls, o.exitCode)
  }

  /** Dispatched messages never update or draw: only an idle pass of the loop does. */
  lemma {:induction false} MessagesNeverDraw(s: WindowState, hasDevice: bool, events: seq<PumpEvent>)
    requires QueueEmpty !in events
    ensures Update !in Pump(s, hasDevice, events).calls && Draw !in Pump(s, hasDevice, events).calls
    decreases |events|
  {
    if events != [] && !events[0].Quit? {
      assert QueueEmpty !in events[1..] by {
        assert forall e :: e in events[1..] ==> e in events;
      }
      MessageCalls(s, hasDevice, events[0].m);
      MessagesNeverDraw(HandleEvent(s, hasDevice, events[0]).state, hasDevice, events[1..]);
    }
  }

  /** Pump on a suffix that starts with WM_QUIT stops there. */
  lemma PumpSuffixQuit(s: WindowState, hasDevice: bool, events: seq<PumpEvent>, i: nat)
    requires i < |events| && events[i].Quit?
    ensures Pump(s, hasDevice, events[i..]) == RunOutcome(s, [], Some(events[i].exitCode))
  {
    assert events[i..][0] == events[i];
  }

  /** Pump on a suffix that starts with anything else runs that pass and goes on. */
  lemma PumpSuffixStep(s: WindowState, hasDevice: bool, events: seq<PumpEvent>, i: nat)
    requires i < |events| && !events[i].Quit?
    ensures var e := HandleEvent(s, hasDevice, events[i]);
      var o := Pump(e.state, hasDevice, events[i + 1..]);
      Pump(s, hasDevice, events[i..]) == RunOutcome(o.state, e.calls + o.calls, o.exitCode)
  {
    assert events[i..][0] == events[i] && events[i..][1..] == events[i + 1..];
  }

  /** The invariant of the loop in Run, carried over one pass that is not WM_QUIT. */
  lemma RunStep(goal: RunOutcome, produced: seq<Call>, s: WindowState, hasDevice: bool, events: seq<PumpEvent>, i: nat)
    requires i < |events| && !events[i].Quit?
    requires var o := Pump(s, hasDevice, events[i..]); goal == RunOutcome(o.state, produced + o.calls, o.exitCode)
    ensures var e := HandleEvent(s, hasDevice, events[i]);
      var o := Pump(e.state, hasDevice, events[i + 1..]);
      goal == RunOutcome(o.state, produced + e.calls + o.calls, o.exitCode)
  {
    PumpSuffixStep(s, hasDevice, events, i);
    var e := HandleEvent(s, hasDevice, events[i]);
    AppendAssoc(produced, e.calls, Pump(e.state, hasDevice, events[i + 1..]).calls);
  }

  /** The loop returns the exit code of the first WM_QUIT, and runs on (no exit code) when
      the script holds none. */
  lemma {:induction false} PumpExitsAtFirstQuit(s: WindowState, hasDevice: bool, events: seq<PumpEvent>)
    ensures Pump(s, hasDevice, events).exitCode.None? <==> forall i :: 0 <= i < |events| ==> !events[i].Quit?
    ensures forall i :: 0 <= i < |events| && events[i].Quit? && (forall j :: 0 <= j < i ==> !events[j].Quit?) ==>
      Pump(s, hasDevice, events).exitCode == Some(events[i].exitCode)
    decreases |events|
  {
    if events != [] && !events[0].Quit? {
      var e := HandleEvent(s, hasDevice, events[0]);
      PumpExitsAtFirstQuit(e.state, hasDevice, events[1..]);
      forall i | 0 <= i < |events| && events[i].Quit? && (forall j :: 0 <= j < i ==> !events[j].Quit?)
        ensures Pump(s, hasDevice, events).exitCode == Some(events[i].exitCode)
      {
        assert events[1..][i - 1] == events[i];
        assert forall j :: 0 <= j < i - 1 ==> events[1..][j] == events[j + 1];
      }
      assert (forall i :: 0 <= i < |events| ==> !events[i].Quit?) <==>
             (forall i :: 0 <= i < |events[1..]| ==> !events[1..][i].Quit?) by {
        assert forall i :: 1 <= i < |events| ==> events[i] == events[1..][i - 1];
      }
    }
  }

  /** While the app is paused and no message arrives, the loop never updates or draws. */
  lemma {:induction false} PausedLoopNeverDraws(s: WindowState, hasDevice: bool, events: seq<PumpEvent>)
    requires s.appPaused
    requires forall i :: 0 <= i < |events| ==> !events[i].Posted?
    ensures Update !in Pump(s, hasDevice, events).calls
    ensures Draw !in Pump(s, hasDevice, events).calls
    ensures Pump(s, hasDevice, events).state == s
  {
    if events != [] && events[0].QueueEmpty? {
      PausedLoopNeverDraws(s, hasDevice, events[1..]);
    }
  }

  /** `n` idle passes with nothing in the queue. */
  function Idle(n: nat): (events: seq<PumpEvent>)
    ensures |events| == n
    ensures forall i :: 0 <= i < n ==> events[i] == QueueEmpty
  {
    if n == 0 then [] else [QueueEmpty] + Idle(n - 1)
  }

  /** `n` copies of `cs`, one after another. */
  function Repeat(cs: seq<Call>, n: nat): (r: seq<Call>)
  {
    if n == 0 then [] else cs + Repeat(cs, n - 1)
  }

  /** A call made once per copy is made `n` times by `n` copies. */
  lemma {:induction false} CountRepeat(c: Call, cs: seq<Call>, n: nat)
    requires Count(c, cs) == 1
    ensures Count(c, Repeat(cs, n)) == n
  {
    if n > 0 {
      CountRepeat(c, cs, n - 1);
      CountAppend(c, cs, Repeat(cs, n - 1));
    }
  }

  /** While the app runs unpaused and no message arrives, the loop keeps running: the window
      state is untouched and each pass makes exactly the calls of one idle tick. */
  lemma {:induction false} IdlePump(s: WindowState, hasDevice: bool, n: nat)
    requires !s.appPaused
    ensures Pump(s, hasDevice, Idle(n)) == RunOutcome(s, Repeat(IdleTick(false), n), None)
  {
    if n > 0 {
      assert Idle(n)[0] == QueueEmpty && Idle(n)[1..] == Idle(n - 1);
      IdlePump(s, hasDevice, n - 1);
    }
  }

  /** While the app runs unpaused and no message arrives, every idle pass updates and draws
      exactly once. */
  lemma RunningLoopDrawsEveryTick(s: WindowState, hasDevice: bool, n: nat)
    requires !s.appPaused
    ensures Count(Draw, Pump(s, hasDevice, Idle(n)).calls) == n
    ensures Count(Update, Pump(s, hasDevice, Idle(n)).calls) == n
    ensures Pump(s, hasDevice, Idle(n)).state == s
  {
    IdlePump(s, hasDevice, n);
    RunningTickCounts();
    CountRepeat(Draw, IdleTick(false), n);
    CountRepeat(Update, IdleTick(false), n);
  }

  /** The calls of one FlushCommandQueue once the fence counter holds `fence`: Signal,
      then a wait only if the GPU has not yet reached that value. */
  function FlushCalls(fence: nat, completedValue: nat): (cs: seq<Call>)
    ensures |cs| >= 1 && cs[0] == Signal(fence)
    ensures WaitForSingleObject in cs <==> completedValue < fence
  {
    [Signal(fence)] + if completedValue < fence then [SetEventOnCompletion(fence), WaitForSingleObject] else []
  }

  /** DXGI_SAMPLE_DESC of the swap chain and the depth/stencil buffer. */
  datatype SampleDesc = SampleDesc(count: Uint, quality: Uint)

  /** Four samples at the highest supported quality level with 4X MSAA on, one sample at
      quality 0 otherwise. `m4xMsaaQuality - 1` is UINT arithmetic, so 0 wraps. */
  function MsaaSampleDesc(msaaState: bool, msaaQuality: Uint): (d: SampleDesc)
    ensures !msaaState ==> d == SampleDesc(1, 0)
    ensures msaaState ==> d.count == 4
    ensures msaaState && msaaQuality > 0 ==> d.quality + 1 == msaaQuality
    ensures msaaState && msaaQuality == 0 ==> d.quality == UintModulus - 1
  {
    if msaaState then SampleDesc(4, (msaaQuality - 1) % UintModulus) else SampleDesc(1, 0)
  }

  /** With a quality-level count the device reported (asserted positive when the device is
      created), the chosen quality is a supported level: below the count. */
  lemma SampleQualityIsSupported(msaaState: bool, msaaQuality: Uint)
    requires msaaQuality > 0
    ensures MsaaSampleDesc(msaaState, msaaQuality).quality < msaaQuality
  {
  }

  class D3DApp {
    var appPaused: bool
    var minimized: bool
    var maximized: bool
    var resizing: bool
    var clientWidth: nat
    var clientHeight: nat
    var msaa4xState: bool
    var msaa4xQuality: Uint
    /** md3dDevice != nullptr. */
    var hasDevice: bool
    /** mCurrentFence, the CPU side of the fence. */
    var currentFence: nat
    /** The calls out of the shell so far, oldest first. */
    var calls: seq<Call>

    function State(): WindowState
      reads this
    {
      WindowState(appPaused, minimized, maximized, resizing, clientWidth, clientHeight, msaa4xState)
    }

    /** The header holding the member initialisers is not part of this model: the flags
        start false, the fence at 0, and the client size is a parameter. */
    constructor (clientWidth: nat, clientHeight: nat)
      ensures State() == WindowState(false, false, false, false, clientWidth, clientHeight, false)
      ensures !hasDevice && msaa4xQuality == 0 && currentFence == 0 && calls == []
    {
      appPaused, minimized, maximized, resizing := false, false, false, false;
      this.clientWidth, this.clientHeight := clientWidth, clientHeight;
      msaa4xState := false;
      msaa4xQuality := 0;
      hasDevice := false;
      currentFence := 0;
      calls := [];
    }

    /** The two effects of InitDirect3D on this state: the device exists, and the 4X MSAA
        quality-level count is stored (the source asserts that it is positive). */
    method DeviceCreated(qualityLevels: Uint)
      requires qualityLevels > 0
      modifies this`hasDevice, this`msaa4xQuality
      ensures hasDevice && msaa4xQuality == qualityLevels
    {
      hasDevice := true;
      msaa4xQuality := qualityLevels;
    }

    function Get4xMsaaState(): bool
      reads this
    {
      msaa4xState
    }

    method Set4xMsaaState(value: bool)
      modifies this`msaa4xState, this`calls
      ensures State() == SetMsaa(old(State()), value).state
      ensures calls == old(calls) + SetMsaa(old(State()), value).calls
    {
      if msaa4xState != value {
        msaa4xState := value;
        calls := calls + [CreateSwapChain, OnResize];
      }
    }

    method MsgProc(m: Msg) returns (r: LResult)
      modifies this`appPaused, this`minimized, this`maximized, this`resizing
      modifies this`clientWidth, this`clientHeight, this`msaa4xState, this`calls
      ensures State() == HandleMessage(old(State()), hasDevice, m).state
      ensures calls == old(calls) + HandleMessage(old(State()), hasDevice, m).calls
      ensures r == HandleMessage(old(State()), hasDevice, m).result
    {
      r := Value(0);
      match m {
        case Activate(w) =>
          if LoWord(w) == WaInactive {
            appPaused := true;
            calls := calls + [TimerStop];
          } else {
            appPaused := false;
            calls := calls + [TimerStart];
          }
        case Size(w, l) =>
          clientWidth := LoWord(l);
          clientHeight := HiWord(l);
          if hasDevice {
            if w == SizeMinimized {
              appPaused, minimized, maximized := true, true, false;
            } else if w == SizeMaximized {
              appPaused, minimized, maximized := false, false, true;
              calls := calls + [OnResize];
            } else if w == SizeRestored {
              if minimized {
                appPaused, minimized := false, false;
                calls := calls + [OnResize];
              } else if maximized {
                appPaused, maximized := false, false;
                calls := calls + [OnResize];
              } else if resizing {
              } else {
                calls := calls + [OnResize];
              }
            }
          }
        case EnterSizeMove =>
          appPaused, resizing := true, true;
          calls := calls + [TimerStop];
        case ExitSizeMove =>
          appPaused, resizing := false, false;
          calls := calls + [TimerStart, OnResize];
        case Destroy =>
          calls := calls + [PostQuitMessage(0)];
        case MenuChar =>
          r := Value(MncClose * 0x1_0000);
        case GetMinMaxInfo =>
          calls := calls + [SetMinTrackSize(200, 200)];
        case ButtonDown(w, l) =>
          calls := calls + [OnMouseDown(w, AsShort(LoWord(l)), AsShort(HiWord(l)))];
        case ButtonUp(w, l) =>
          calls := calls + [OnMouseUp(w, AsShort(LoWord(l)), AsShort(HiWord(l)))];
        case MouseMove(w, l) =>
          calls := calls + [OnMouseMove(w, AsShort(LoWord(l)), AsShort(HiWord(l)))];
        case KeyUp(w) =>
          if w == VkEscape {
            calls := calls + [PostQuitMessage(0)];
          } else if IntCast(w) == VkF2 {
            Set4xMsaaState(!msaa4xState);
          }
        case Unhandled(_, _, _) =>
          calls := calls + [DefWindowProc(m)];
          r := FromDefWindowProc;
      }
    }

    /** One pass of the loop in Run. */
    method PumpOne(e: PumpEvent) returns (quit: Option<int>)
      modifies this`appPaused, this`minimized, this`maximized, this`resizing
      modifies this`clientWidth, this`clientHeight, this`msaa4xState, this`calls
      ensures State() == HandleEvent(old(State()), hasDevice, e).state
      ensures calls == old(calls) + HandleEvent(old(State()), hasDevice, e).calls
      ensures quit == HandleEvent(old(State()), hasDevice, e).quit
    {
      quit := None;
      match e {
        case Quit(code) =>
          quit := Some(code);
        case QueueEmpty =>
          calls := calls + [TimerTick];
          if !appPaused {
            calls := calls + [CalculateFrameStats, Update, Draw];
          } else {
            calls := calls + [Sleep(100)];
          }
        case Posted(m) =>
          var _ := MsgProc(m);
      }
    }

    /** The message loop over a finite script of PeekMessage results: reset the timer,
        then pass after pass until WM_QUIT, whose exit code is returned. */
    method Run(events: seq<PumpEvent>) returns (exitCode: Option<int>)
      modifies this`appPaused, this`minimized, this`maximized, this`resizing
      modifies this`clientWidth, this`clientHeight, this`msaa4xState, this`calls
      ensures var o := Pump(old(State()), hasDevice, events);
        State() == o.state && calls == old(calls) + [TimerReset] + o.calls && exitCode == o.exitCode
    {
      calls := calls + [TimerReset];
      ghost var start := calls;
      ghost var goal := Pump(old(State()), hasDevice, events);
      ghost var produced: seq<Call> := [];
      assert events[0..] == events;
      var i := 0;
      while i < |events|
        invariant 0 <= i <= |events|
        invariant calls == start + produced
        invariant var o := Pump(State(), hasDevice, events[i..]);
          goal == RunOutcome(o.state, produced + o.calls, o.exitCode)
      {
        ghost var s := State();
        ghost var e := HandleEvent(s, hasDevice, events[i]);
        if events[i].Quit? {
          PumpSuffixQuit(s, hasDevice, events, i);
        } else {
          RunStep(goal, produced, s, hasDevice, events, i);
        }
        var q := PumpOne(events[i]);
        if q.Some? {
          // WM_QUIT ends the loop with its exit code.
          AppendEmpty(start + produced);
          AppendEmpty(produced);
          return q;
        }
        AppendAssoc(start, produced, e.calls);
        produced := produced + e.calls;
        i := i + 1;
      }
      assert events[i..] == [];
      AppendEmpty(produced);
      exitCode := None;
    }

    /** mCurrentFence goes up by exactly one, that value is signalled, and the CPU waits
        only if the GPU has not yet completed it. `completedValue` is what
        GetCompletedValue reports. */
    method FlushCommandQueue(completedValue: nat)
      modifies this`currentFence, this`calls
      ensures currentFence == old(currentFence) + 1
      ensures calls == old(calls) + FlushCalls(currentFence, completedValue)
    {
      currentFence := currentFence + 1;
      calls := calls + [Signal(currentFence)];
      if completedValue < currentFence {
        calls := calls + [SetEventOnCompletion(currentFence), WaitForSingleObject];
      }
    }

    /** The destructor flushes the queue when a device exists. */
    method Dispose(completedValue: nat)
      modifies this`currentFence, this`calls
      ensures hasDevice ==> currentFence == old(currentFence) + 1 &&
                            calls == old(calls) + FlushCalls(currentFence, completedValue)
      ensures !hasDevice ==> currentFence == old(currentFence) && calls == old(calls)
    {
      if hasDevice {
        FlushCommandQueue(completedValue);
      }
    }
  }
}
