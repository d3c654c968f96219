/**
 * The machine-state badge of the control UI: a case-insensitive classifier of
 * the controller's free-form status token into five display classes, and the
 * one-field holder that the status fetch writes into.
 */
module MachineStateDisplay {
  import opened Wrappers

  /** A position snapshot; `a` is the optional rotary axis. */
  datatype AxisPosition = AxisPosition(x: real, y: real, z: real, a: Option<real>)

  /** The backend's status snapshot. Only `state` is read by the badge. */
  datatype MachineStatus = MachineStatus(
    state: string,
    workPos: AxisPosition,
    machinePos: AxisPosition,
    feedRate: real,
    spindleSpeed: real)

  /** The five display classes, in the order the classifier tries them. */
  datatype StateClass = Idle | Run | Hold | Alarm | Disconnected

  /** The CSS class name the badge renders for each display class. */
  function CssClass(c: StateClass): (name: string)
    ensures |name| > 6 && name[..6] == "state-"
  {
    match c
    case Idle => "state-idle"
    case Run => "state-run"
    case Hold => "state-hold"
    case Alarm => "state-alarm"
    case Disconnected => "state-disconnected"
  }

  /** Each display class renders under a class name of its own. */
  lemma CssClassInjective(a: StateClass, b: StateClass)
    requires CssClass(a) == CssClass(b)
    ensures a == b
  {
    assert CssClass(a)[6] == CssClass(b)[6];
  }

  /** The label shown before any status has arrived and after a failed fetch. */
  const DisconnectedLabel := "Disconnected"

  // ---------------------------------------------------------------------------
  // Lower-casing and substring search
  // ---------------------------------------------------------------------------

  function LowerChar(c: char): char
  {
    if 'A' <= c <= 'Z' then (c as int + 32) as char else c
  }

  /** `toLowerCase`, on the ASCII letters. */
  function Lower(s: string): (r: string)
    ensures |r| == |s|
    ensures forall i :: 0 <= i < |s| ==> r[i] == LowerChar(s[i])
  {
    if s == [] then [] else [LowerChar(s[0])] + Lower(s[1..])
  }

  /** `s.includes(t)`: `t` occurs in `s` as a contiguous block. */
  predicate Contains(s: string, t: string)
  {
    t <= s || (s != [] && Contains(s[1..], t))
  }

  /** `t` occupies the window of `s` that starts at `i`. */
  predicate OccursAt(s: string, t: string, i: int)
  {
    0 <= i && i + |t| <= |s| && s[i..i + |t|] == t
  }

  /** The positional reading of `Contains`: some window of `s` equals `t`. */
  lemma {:induction false} ContainsAt(s: string, t: string)
    ensures Contains(s, t) <==> exists i :: OccursAt(s, t, i)
  {
    if t <= s {
      assert OccursAt(s, t, 0);
    } else if s == [] {
      assert forall i :: !OccursAt(s, t, i);
    } else {
      ContainsAt(s[1..], t);
      if exists i :: OccursAt(s, t, i) {
        var i :| OccursAt(s, t, i);
        assert OccursAt(s[1..], t, i - 1);
      }
      if exists i :: OccursAt(s[1..], t, i) {
        var i :| OccursAt(s[1..], t, i);
        assert OccursAt(s, t, i + 1);
      }
    }
  }

  /** A token cannot contain a keyword one of whose letters it lacks. */
  lemma {:induction false} MissingLetter(s: string, t: string, c: char)
    requires c in t && c !in s
    ensures !Contains(s, t)
  {
    if s != [] {
      MissingLetter(s[1..], t, c);
    }
  }

  // ---------------------------------------------------------------------------
  // The classifier
  // ---------------------------------------------------------------------------

  /** `stateClass`: the first keyword group that occurs in the lower-cased token wins. */
  function Classify(state: string): (c: StateClass)
    ensures c != Disconnected ==> Matches(state, c)
  {
    var s := Lower(state);
    if Contains(s, "idle") then Idle
    else if Contains(s, "run") || Contains(s, "jog") then Run
    else if Contains(s, "hold") then Hold
    else if Contains(s, "alarm") || Contains(s, "error") then Alarm
    else Disconnected
  }

  /** The keywords that select each class; `Disconnected` is the fallback and has none. */
  function Keywords(c: StateClass): seq<string>
  {
    match c
    case Idle => ["idle"]
    case Run => ["run", "jog"]
    case Hold => ["hold"]
    case Alarm => ["alarm", "error"]
    case Disconnected => []
  }

  /** The position of each class in the classifier's order of precedence. */
  function Rank(c: StateClass): nat
  {
    match c
    case Idle => 0
    case Run => 1
    case Hold => 2
    case Alarm => 3
    case Disconnected => 4
  }

  /** Whether one of the class's keywords occurs in the token, ignoring case. */
  predicate Matches(state: string, c: StateClass)
  {
    exists k :: k in Keywords(c) && Contains(Lower(state), k)
  }

  /**
   * The classifier, stated independently of its if-chain: the result is the
   * matching class of least rank, and `Disconnected` exactly when nothing matches.
   */
  lemma ClassifyIsFirstMatch(state: string)
    ensures Classify(state) == Disconnected || Matches(state, Classify(state))
    ensures forall c :: Matches(state, c) ==> Rank(Classify(state)) <= Rank(c)
    ensures Classify(state) == Disconnected <==> forall c :: !Matches(state, c)
  {
    var s := Lower(state);
    assert Keywords(Idle) == ["idle"];
    assert Keywords(Run) == ["run", "jog"];
    assert Keywords(Hold) == ["hold"];
    assert Keywords(Alarm) == ["alarm", "error"];
    assert Matches(state, Idle) <==> Contains(s, "idle");
    assert Matches(state, Run) <==> Contains(s, "run") || Contains(s, "jog");
    assert Matches(state, Hold) <==> Contains(s, "hold");
    assert Matches(state, Alarm) <==> Contains(s, "alarm") || Contains(s, "error");
    assert !Matches(state, Disconnected);
  }

  /** Two tokens that differ only in the case of their letters. */
  predicate EqualIgnoringCase(a: string, b: string)
  {
    |a| == |b| && forall i :: 0 <= i < |a| ==> LowerChar(a[i]) == LowerChar(b[i])
  }

  /** Case-insensitivity: tokens equal up to case classify alike ("IDLE" and "idle"). */
  lemma ClassifyIgnoresCase(a: string, b: string)
    requires EqualIgnoringCase(a, b)
    ensures Classify(a) == Classify(b)
  {
    assert Lower(a) == Lower(b);
  }

  /** Lower-casing the token first changes nothing: the classifier already does it. */
  lemma ClassifyLowered(state: string)
    ensures Classify(Lower(state)) == Classify(state)
  {
    var l := Lower(state);
    forall i | 0 <= i < |l|
      ensures LowerChar(l[i]) == LowerChar(state[i])
    {
    }
    ClassifyIgnoresCase(Lower(state), state);
  }

  /** Lower-casing cannot produce a letter whose two cases are both absent. */
  lemma LowerLacks(s: string, c: char)
    requires 'a' <= c <= 'z'
    requires c !in s && (c as int - 32) as char !in s
    ensures c !in Lower(s)
  {
  }

  /** `Contains(Lower(s), t)` fails when `s` lacks a letter of `t` in both cases. */
  lemma LacksKeyword(s: string, t: string, c: char)
    requires 'a' <= c <= 'z' && c in t
    requires c !in s && (c as int - 32) as char !in s
    ensures !Contains(Lower(s), t)
  {
    LowerLacks(s, c);
    MissingLetter(Lower(s), t, c);
  }

  /** A token that starts with "idle" in any case is idle, whatever follows. */
  lemma ClassifyIdlePrefix(s: string)
    requires "idle" <= Lower(s)
    ensures Classify(s) == Idle
  {
  }

  /** A token that starts with "run" or "jog" in any case and lacks the letter i is run. */
  lemma ClassifyRunPrefix(s: string)
    requires "run" <= Lower(s) || "jog" <= Lower(s)
    requires 'i' !in s && 'I' !in s
    ensures Classify(s) == Run
  {
    LacksKeyword(s, "idle", 'i');
  }

  /** Sample tokens from the controller: plain state names. */
  lemma ClassifyExamples()
    ensures Classify("Idle") == Idle && Classify("IDLE") == Idle
    ensures Classify("Run") == Run && Classify("Jog") == Run
    ensures Classify("") == Disconnected
  {
    assert "idle" <= Lower("Idle");
    ClassifyIdlePrefix("Idle");
    assert "idle" <= Lower("IDLE");
    ClassifyIdlePrefix("IDLE");
    assert "run" <= Lower("Run");
    ClassifyRunPrefix("Run");
    assert "jog" <= Lower("Jog");
    ClassifyRunPrefix("Jog");
    EmptyClass();
  }

  /** A token lacking the letters i, r, j classifies by its hold and alarm keywords. */
  lemma ClassifyWithoutIdleOrRun(s: string)
    requires 'i' !in s && 'I' !in s && 'r' !in s && 'R' !in s && 'j' !in s && 'J' !in s
    ensures Classify(s) == if Contains(Lower(s), "hold") then Hold
                           else if Contains(Lower(s), "alarm") || Contains(Lower(s), "error") then Alarm
                           else Disconnected
  {
    LacksKeyword(s, "idle", 'i');
    LacksKeyword(s, "run", 'r');
    LacksKeyword(s, "jog", 'j');
  }

  /** A hold sub-state token classifies as hold. */
  lemma ClassifyHoldExample()
    ensures Classify("Hold:0") == Hold
  {
    assert "hold" <= Lower("Hold:0");
    ClassifyWithoutIdleOrRun("Hold:0");
  }

  /** A token that starts with "alarm" in any case and lacks the letters i, u, j and h is an alarm. */
  lemma ClassifyAlarmPrefix(s: string)
    requires "alarm" <= Lower(s)
    requires 'i' !in s && 'I' !in s && 'u' !in s && 'U' !in s
    requires 'j' !in s && 'J' !in s && 'h' !in s && 'H' !in s
    ensures Classify(s) == Alarm
  {
    LacksKeyword(s, "idle", 'i');
    LacksKeyword(s, "run", 'u');
    LacksKeyword(s, "jog", 'j');
    LacksKeyword(s, "hold", 'h');
  }

  /** An alarm sub-state token classifies as alarm. */
  lemma ClassifyAlarmExample()
    ensures Classify("Alarm:1") == Alarm
  {
    assert "alarm" <= Lower("Alarm:1");
    ClassifyAlarmPrefix("Alarm:1");
  }

  /** A token carrying both the idle and the alarm flag classifies as idle. */
  lemma ClassifyTwoFlagsExample()
    ensures Classify("Idle|Alarm") == Idle
  {
    assert "idle" <= Lower("Idle|Alarm");
  }

  /** A token lacking the letters l, r and j matches no keyword. */
  lemma ClassifyWithoutKeywordLetters(s: string)
    requires 'l' !in s && 'L' !in s && 'r' !in s && 'R' !in s && 'j' !in s && 'J' !in s
    ensures Classify(s) == Disconnected
  {
    LacksKeyword(s, "idle", 'l');
    LacksKeyword(s, "run", 'r');
    LacksKeyword(s, "jog", 'j');
    LacksKeyword(s, "hold", 'l');
    LacksKeyword(s, "alarm", 'l');
    LacksKeyword(s, "error", 'r');
  }

  /** The empty token classifies as disconnected. */
  lemma EmptyClass()
    ensures Classify("") == Disconnected
  {
    assert Lower("") == "";
  }

  /** The fallback label itself classifies as disconnected. */
  lemma DisconnectedLabelClass()
    ensures Classify(DisconnectedLabel) == Disconnected
  {
    ClassifyWithoutKeywordLetters(DisconnectedLabel);
  }

  /** `stateLabel`: the token itself, or "Disconnected" when it is empty. */
  function StateLabel(state: string): (shown: string)
    ensures shown != ""
    ensures state != "" ==> shown == state
    ensures state == "" ==> shown == DisconnectedLabel
  {
    if state == "" then DisconnectedLabel else state
  }

  /** The label and the class never disagree: the fallback label classifies as the empty token does. */
  lemma LabelClassAgree(state: string)
    ensures Classify(StateLabel(state)) == Classify(state)
  {
    if state == "" {
      DisconnectedLabelClass();
      EmptyClass();
    }
  }

  // ---------------------------------------------------------------------------
  // The component
  // ---------------------------------------------------------------------------

  /** The badge component: one `state` signal, written only by the status fetch. */
  class StateDisplay {
    var state: string

    constructor ()
      ensures state == DisconnectedLabel
    {
      state := DisconnectedLabel;
    }

    /** `stateLabel`: what the badge reads. */
    function Label(): (shown: string)
      reads this
      ensures shown == state || shown == DisconnectedLabel
    {
      StateLabel(state)
    }

    /** `stateClass`: how the badge is coloured; always the class of the label it shows. */
    function Class(): (c: StateClass)
      reads this
      ensures c == Classify(Label())
    {
      LabelClassAgree(state);
      Classify(state)
    }

    /**
     * `refreshState`, with the backend's answer as a parameter: a fetched status
     * is stored verbatim, a failed fetch stores "Disconnected".
     */
    method RefreshState(fetched: Result<MachineStatus, string>)
      modifies this
      ensures fetched.Ok? ==> state == fetched.value.state
      ensures fetched.Err? ==> state == DisconnectedLabel && Class() == Disconnected
    {
      match fetched
      case Ok(status) =>
        state := status.state;
      case Err(_) =>
        state := DisconnectedLabel;
        DisconnectedLabelClass();
    }

    /**
     * `ngOnInit`: the status is fetched only when the mode check succeeds and
     * answers true; otherwise nothing changes.
     */
    method OnInit(mockMode: Result<bool, string>, fetched: Result<MachineStatus, string>) returns (polled: bool)
      modifies this
      ensures polled <==> mockMode == Ok(true)
      ensures polled && fetched.Ok? ==> state == fetched.value.state
      ensures polled && fetched.Err? ==> state == DisconnectedLabel
      ensures !polled ==> state == old(state)
    {
      polled := mockMode == Ok(true);
      if polled {
        RefreshState(fetched);
      }
    }
  }
}
