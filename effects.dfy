/** The observable effects of the kernel updater, in the order they happen,
    and the views of an effect history that the window shows: the status
    label, the progress bar and the text of the log buffer. */
module Effects {

  /** One observable effect. Progress is kept in tenths: the bar's
      fraction times ten, so the checkpoints 0.1, 0.3, 0.6 and 1.0 are
      1, 3, 6 and 10. */
  datatype Effect =
    | Status(text: string)      // the status label is set to `text`
    | Progress(tenths: nat)     // the progress bar is set to tenths / 10
    | Log(line: string)         // `line` and a newline are appended to the log buffer
    | Spawn(command: string)    // `command` is handed to the host shell

  /** Which part of the window (or the host) an effect reaches. */
  datatype Channel = StatusChannel | ProgressChannel | LogChannel | ProcessChannel

  function ChannelOf(e: Effect): Channel {
    match e
    case Status(_) => StatusChannel
    case Progress(_) => ProgressChannel
    case Log(_) => LogChannel
    case Spawn(_) => ProcessChannel
  }

  /** `e` alone if it reaches channel `c`, else nothing. */
  function Keep(e: Effect, c: Channel): (r: seq<Effect>)
    ensures ChannelOf(e) == c ==> r == [e]
    ensures ChannelOf(e) != c ==> r == []
  {
    if ChannelOf(e) == c then [e] else []
  }

  /** The effects of `es` that reach channel `c`, in their original order. */
  function Only(es: seq<Effect>, c: Channel): (r: seq<Effect>)
    ensures |r| <= |es|
  {
    if es == [] then []
    else Keep(es[0], c) + Only(es[1..], c)
  }

  lemma {:induction false} OnlyAppend(a: seq<Effect>, b: seq<Effect>, c: Channel)
    ensures Only(a + b, c) == Only(a, c) + Only(b, c)
  {
    if a == [] {
      assert a + b == b;
    } else {
      assert (a + b)[0] == a[0];
      assert (a + b)[1..] == a[1..] + b;
      OnlyAppend(a[1..], b, c);
    }
  }

  /** Projecting a sequence that starts with one known effect. */
  lemma OnlyCons(e: Effect, es: seq<Effect>, c: Channel)
    ensures Only([e] + es, c) == Keep(e, c) + Only(es, c)
  {
    assert ([e] + es)[0] == e;
    assert ([e] + es)[1..] == es;
  }

  lemma OnlyTwo(e0: Effect, e1: Effect, c: Channel)
    ensures Only([e0, e1], c) == Keep(e0, c) + Keep(e1, c)
  {
    assert [e0, e1] == [e0] + ([e1] + []);
    OnlyCons(e0, [e1] + [], c);
    OnlyCons(e1, [], c);
  }

  lemma OnlyThree(e0: Effect, e1: Effect, e2: Effect, c: Channel)
    ensures Only([e0, e1, e2], c) == Keep(e0, c) + (Keep(e1, c) + Keep(e2, c))
  {
    assert [e0, e1, e2] == [e0] + [e1, e2];
    OnlyCons(e0, [e1, e2], c);
    OnlyTwo(e1, e2, c);
  }

  lemma OnlyFour(e0: Effect, e1: Effect, e2: Effect, e3: Effect, c: Channel)
    ensures Only([e0, e1, e2, e3], c) == (Keep(e0, c) + Keep(e1, c)) + (Keep(e2, c) + Keep(e3, c))
  {
    assert [e0, e1, e2, e3] == [e0, e1] + [e2, e3];
    OnlyAppend([e0, e1], [e2, e3], c);
    OnlyTwo(e0, e1, c);
    OnlyTwo(e2, e3, c);
  }

  /** An effect reaches channel c after projection exactly when it was in
      the history and belongs to c. */
  lemma {:induction false} InOnly(es: seq<Effect>, c: Channel, e: Effect)
    ensures e in Only(es, c) <==> e in es && ChannelOf(e) == c
  {
    if es != [] {
      InOnly(es[1..], c, e);
      assert es == [es[0]] + es[1..];
    }
  }

  /** Text of the status label before any update (the label is created as "Ready"). */
  const InitialStatus := "Ready"

  /** The progress bar starts at fraction 0. */
  const InitialProgress: nat := 0

  /** What the status label shows after the history `es`: the last status
      set, so always "Ready" or a text some effect of `es` set. */
  function CurrentStatus(es: seq<Effect>): (text: string)
    ensures text == InitialStatus || Status(text) in es
  {
    var s := Only(es, StatusChannel);
    if s == [] then InitialStatus
    else
      InOnly(es, StatusChannel, s[|s| - 1]);
      match s[|s| - 1]
      case Status(t) => t
      case _ => InitialStatus
  }

  /** What the progress bar shows after the history `es`, in tenths: the
      last checkpoint set, so always 0 or a value some effect of `es` set. */
  function CurrentProgress(es: seq<Effect>): (tenths: nat)
    ensures tenths == InitialProgress || Progress(tenths) in es
  {
    var p := Only(es, ProgressChannel);
    if p == [] then InitialProgress
    else
      InOnly(es, ProgressChannel, p[|p| - 1]);
      match p[|p| - 1]
      case Progress(t) => t
      case _ => InitialProgress
  }

  /** Each logged line followed by a newline, in order. */
  function Lines(logged: seq<Effect>): string {
    if logged == [] then ""
    else (match logged[0] case Log(line) => line + "\n" case _ => "") + Lines(logged[1..])
  }

  lemma {:induction false} LinesAppend(a: seq<Effect>, b: seq<Effect>)
    ensures Lines(a + b) == Lines(a) + Lines(b)
  {
    if a == [] {
      assert a + b == b;
    } else {
      assert (a + b)[0] == a[0];
      assert (a + b)[1..] == a[1..] + b;
      LinesAppend(a[1..], b);
    }
  }

  /** The text of the log buffer after the history `es`. */
  function LogText(es: seq<Effect>): string {
    Lines(Only(es, LogChannel))
  }

  /** Projecting a history extended by one effect. */
  lemma OnlyLast(es: seq<Effect>, e: Effect, c: Channel)
    ensures Only(es + [e], c) == Only(es, c) + Keep(e, c)
  {
    OnlyAppend(es, [e], c);
    OnlyCons(e, [], c);
    assert [e] + [] == [e];
  }

  lemma StatusAfterEffect(es: seq<Effect>, e: Effect)
    ensures CurrentStatus(es + [e]) == if e.Status? then e.text else CurrentStatus(es)
  {
    OnlyLast(es, e, StatusChannel);
    if !e.Status? {
      assert Only(es + [e], StatusChannel) == Only(es, StatusChannel) + [];
    }
  }

  lemma ProgressAfterEffect(es: seq<Effect>, e: Effect)
    ensures CurrentProgress(es + [e]) == if e.Progress? then e.tenths else CurrentProgress(es)
  {
    OnlyLast(es, e, ProgressChannel);
    if !e.Progress? {
      assert Only(es + [e], ProgressChannel) == Only(es, ProgressChannel) + [];
    }
  }

  lemma LogAfterEffect(es: seq<Effect>, e: Effect)
    ensures LogText(es + [e]) == LogText(es) + if e.Log? then e.line + "\n" else ""
  {
    OnlyLast(es, e, LogChannel);
    LinesAppend(Only(es, LogChannel), Keep(e, LogChannel));
    if e.Log? {
      assert [e][1..] == [];
      assert Lines([e]) == e.line + "\n" + Lines([]);
    } else {
      assert Lines(Keep(e, LogChannel)) == "";
    }
  }

  /** One more effect changes only the view it reaches: a Status effect
      sets the label, a Progress effect the bar, a Log effect appends its
      line and a newline to the buffer, and a Spawn effect none of them. */
  lemma WindowAfterEffect(es: seq<Effect>, e: Effect)
    ensures CurrentStatus(es + [e]) == if e.Status? then e.text else CurrentStatus(es)
    ensures CurrentProgress(es + [e]) == if e.Progress? then e.tenths else CurrentProgress(es)
    ensures LogText(es + [e]) == LogText(es) + if e.Log? then e.line + "\n" else ""
  {
    StatusAfterEffect(es, e);
    ProgressAfterEffect(es, e);
    LogAfterEffect(es, e);
  }

  /** A sequence of progress effects never moves the bar backwards. */
  ghost predicate NonDecreasing(ps: seq<Effect>) {
    forall i, j :: 0 <= i <= j < |ps| && ps[i].Progress? && ps[j].Progress? ==> ps[i].tenths <= ps[j].tenths
  }
}
