/**
 * Alerts and the alert batch (cmd/types.go). An `Alert` is a value; an
 * `AlertList` is an object whose slice of alerts its methods replace, shared by
 * pointer between a container and its checks. Sending goes through an
 * `Outbox` that records each batch handed to the channels.
 */
module Types {
  import opened Wrappers
  import opened Strings
  import opened Alerters

  datatype Alert = Alert(message: string, title: string, err: Option<string>)
  {
    /** Alert.Dump: the one-line form of an alert. */
    function Dump(): string
    {
      (if title != "" then title + " - " else "") + ReplaceNewlines(message) + (if err.Some? then " - " + err.value else "")
    }

    /** Alert.DumpEmail: the form of an alert in an email body. */
    function DumpEmail(): string
    {
      (if title != "" then title + "\n" else "") + message + (if err.Some? then "\n" + err.value else "")
    }
  }

  /**
   * The layout of Alert.Dump: the title, when there is one, followed by " - ";
   * then the message with its newlines turned into spaces; then " - " and the
   * error text when there is an error.
   */
  lemma DumpLayout(a: Alert)
    ensures var s := a.Dump();
      |s| == (if a.title != "" then |a.title| + 3 else 0) + |a.message| + (if a.err.Some? then 3 + |a.err.value| else 0)
    ensures a.title != "" ==> a.Dump()[..|a.title| + 3] == a.title + " - "
    ensures var start := if a.title != "" then |a.title| + 3 else 0;
      a.Dump()[start..start + |a.message|] == ReplaceNewlines(a.message)
    ensures a.err.Some? ==> a.Dump()[|a.Dump()| - |a.err.value| - 3..] == " - " + a.err.value
    ensures a.title == "" && a.err.None? ==> a.Dump() == ReplaceNewlines(a.message)
  {
    var head := if a.title != "" then a.title + " - " else "";
    var tail := if a.err.Some? then " - " + a.err.value else "";
    var s := a.Dump();
    assert s == head + ReplaceNewlines(a.message) + tail;
    assert s[|head|..|head| + |a.message|] == ReplaceNewlines(a.message);
  }

  /** Alert.Dump is a single line whenever the title and the error text are. */
  lemma DumpSingleLine(a: Alert)
    requires '\n' !in a.title
    requires a.err.None? || '\n' !in a.err.value
    ensures '\n' !in a.Dump()
  {
    var head := if a.title != "" then a.title + " - " else "";
    var tail := if a.err.Some? then " - " + a.err.value else "";
    var body := ReplaceNewlines(a.message);
    assert '\n' !in head && '\n' !in tail && '\n' !in body;
    assert a.Dump() == head + body + tail;
  }

  /**
   * The layout of Alert.DumpEmail: the title on its own line when there is
   * one, then the message unchanged, then the error on a line of its own.
   */
  lemma DumpEmailLayout(a: Alert)
    ensures var s := a.DumpEmail();
      |s| == (if a.title != "" then |a.title| + 1 else 0) + |a.message| + (if a.err.Some? then 1 + |a.err.value| else 0)
    ensures a.title != "" ==> a.DumpEmail()[..|a.title| + 1] == a.title + "\n"
    ensures var start := if a.title != "" then |a.title| + 1 else 0;
      a.DumpEmail()[start..start + |a.message|] == a.message
    ensures a.err.Some? ==> a.DumpEmail()[|a.DumpEmail()| - |a.err.value| - 1..] == "\n" + a.err.value
    ensures a.title == "" && a.err.None? ==> a.DumpEmail() == a.message
  {
    var head := if a.title != "" then a.title + "\n" else "";
    var tail := if a.err.Some? then "\n" + a.err.value else "";
    var s := a.DumpEmail();
    assert s == head + a.message + tail;
    assert s[|head|..|head| + |a.message|] == a.message;
  }

  /** The four renderings of an alert that AlertList concatenates. */
  datatype Rendering = AsDump | AsDumpEmail | AsMessage | AsTitle

  /** The text one alert contributes to a rendering of its list, separator included. */
  function Piece(kind: Rendering, a: Alert): string
  {
    match kind
    case AsDump => a.Dump() + "\n\n"
    case AsDumpEmail => a.DumpEmail() + "\n\n"
    case AsMessage => a.message + " "
    case AsTitle => a.title + " "
  }

  /** The piece of each alert of `alerts`, in list order. */
  function Pieces(kind: Rendering, alerts: seq<Alert>): (p: seq<string>)
    ensures |p| == |alerts|
    ensures forall i :: 0 <= i < |alerts| ==> p[i] == Piece(kind, alerts[i])
  {
    seq(|alerts|, i requires 0 <= i < |alerts| => Piece(kind, alerts[i]))
  }

  /** The rendering `kind` of a list of alerts: their pieces one after the other. */
  function Rendered(kind: Rendering, alerts: seq<Alert>): string
  {
    Concatenation(Pieces(kind, alerts))
  }

  /** Rendering distributes over concatenation of alert lists. */
  lemma RenderedAppend(kind: Rendering, a: seq<Alert>, b: seq<Alert>)
    ensures Rendered(kind, a + b) == Rendered(kind, a) + Rendered(kind, b)
  {
    var pa, pb, pab := Pieces(kind, a), Pieces(kind, b), Pieces(kind, a + b);
    forall i | 0 <= i < |pab| ensures pab[i] == (pa + pb)[i] {
      if i < |a| {
        assert (a + b)[i] == a[i];
      } else {
        assert (a + b)[i] == b[i - |a|];
      }
    }
    assert pab == pa + pb;
    ConcatenationAppend(pa, pb);
  }

  /** A one-alert list renders to that alert's piece; the empty list to "". */
  lemma RenderedSingle(kind: Rendering, x: Alert)
    ensures Rendered(kind, []) == ""
    ensures Rendered(kind, [x]) == Piece(kind, x)
  {
    assert Pieces(kind, [x]) == [] + [Piece(kind, x)];
    ConcatenationAppend([], [Piece(kind, x)]);
  }

  /** One more alert adds its piece at the end. */
  lemma RenderedSnoc(kind: Rendering, xs: seq<Alert>, x: Alert)
    ensures Rendered(kind, xs + [x]) == Rendered(kind, xs) + Piece(kind, x)
  {
    assert Pieces(kind, xs + [x]) == Pieces(kind, xs) + [Piece(kind, x)];
    assert Pieces(kind, xs + [x])[..|xs|] == Pieces(kind, xs);
  }

  /** Rendering the first i + 1 alerts adds alert i's piece to the rendering of the first i. */
  lemma RenderedStep(kind: Rendering, xs: seq<Alert>, i: nat)
    requires i < |xs|
    ensures Rendered(kind, xs[..i + 1]) == Rendered(kind, xs[..i]) + Piece(kind, xs[i])
  {
    assert xs[..i + 1] == xs[..i] + [xs[i]];
    RenderedSnoc(kind, xs[..i], xs[i]);
  }

  /**
   * The rendering of a list holds every alert's piece, between the rendering
   * of the alerts before it and that of the alerts after it.
   */
  lemma RenderedAt(kind: Rendering, alerts: seq<Alert>, k: nat)
    requires k < |alerts|
    ensures Rendered(kind, alerts) == Rendered(kind, alerts[..k]) + Piece(kind, alerts[k]) + Rendered(kind, alerts[k + 1..])
  {
    var front := alerts[..k];
    var back := alerts[k + 1..];
    assert alerts == front + [alerts[k]] + back;
    RenderedAppend(kind, front + [alerts[k]], back);
    RenderedAppend(kind, front, [alerts[k]]);
    RenderedSingle(kind, alerts[k]);
  }

  /**
   * The alerts a Concat appends: for each argument list in turn, its
   * alerts at the moment the loop reaches it. `isSelf[j]` tells that argument j
   * is the receiver itself, whose slice by then already holds what the
   * earlier arguments appended; `contents[j]` is argument j's slice otherwise.
   */
  function Appended(acc: seq<Alert>, isSelf: seq<bool>, contents: seq<seq<Alert>>): seq<Alert>
    requires |isSelf| == |contents|
    decreases |contents|
  {
    if contents == [] then acc
    else
      var n := |contents| - 1;
      var before := Appended(acc, isSelf[..n], contents[..n]);
      before + (if isSelf[n] then before else contents[n])
  }

  /** All the alerts of a sequence of lists, in order. */
  function Flatten(contents: seq<seq<Alert>>): seq<Alert>
    decreases |contents|
  {
    if contents == [] then [] else Flatten(contents[..|contents| - 1]) + contents[|contents| - 1]
  }

  function TotalLen(contents: seq<seq<Alert>>): nat
    decreases |contents|
  {
    if contents == [] then 0 else TotalLen(contents[..|contents| - 1]) + |contents[|contents| - 1]|
  }

  /** Argument j of a Concat appends its own slice, or what the receiver holds by then when it is the receiver. */
  lemma AppendedStep(acc: seq<Alert>, isSelf: seq<bool>, contents: seq<seq<Alert>>, j: nat)
    requires |isSelf| == |contents| && j < |contents|
    ensures var before := Appended(acc, isSelf[..j], contents[..j]);
      Appended(acc, isSelf[..j + 1], contents[..j + 1]) == before + (if isSelf[j] then before else contents[j])
  {
    assert isSelf[..j + 1][..j] == isSelf[..j];
    assert contents[..j + 1][..j] == contents[..j];
  }

  /**
   * When the receiver is not among the arguments, Concat appends all their
   * alerts in argument order, each list in its own order, and nothing else:
   * the length grows by the sum of the argument lengths.
   */
  lemma {:induction false} AppendedDisjoint(acc: seq<Alert>, isSelf: seq<bool>, contents: seq<seq<Alert>>)
    requires |isSelf| == |contents|
    requires forall j :: 0 <= j < |isSelf| ==> !isSelf[j]
    ensures Appended(acc, isSelf, contents) == acc + Flatten(contents)
    ensures |Appended(acc, isSelf, contents)| == |acc| + TotalLen(contents)
    decreases |contents|
  {
    if contents != [] {
      var n := |contents| - 1;
      AppendedDisjoint(acc, isSelf[..n], contents[..n]);
      var before := Appended(acc, isSelf[..n], contents[..n]);
      assert Appended(acc, isSelf, contents) == before + contents[n];
      assert Flatten(contents) == Flatten(contents[..n]) + contents[n];
      assert before + contents[n] == acc + (Flatten(contents[..n]) + contents[n]);
    }
  }

  /** `a.Concat(a)` doubles the list: the range is taken over the slice as it was. */
  lemma AppendedSelf(acc: seq<Alert>, held: seq<Alert>)
    ensures Appended(acc, [true], [held]) == acc + acc
  {
    assert [true][..0] == [];
    assert [held][..0] == [];
  }

  /** `a.Concat(b)` for another list `b` appends b's alerts. */
  lemma AppendedOne(acc: seq<Alert>, held: seq<Alert>)
    ensures Appended(acc, [false], [held]) == acc + held
  {
    assert [false][..0] == [];
    assert [held][..0] == [];
  }

  /** Which arguments of a Concat are the receiver. */
  function SelfMask(lists: seq<AlertList>, self: AlertList): (m: seq<bool>)
    ensures |m| == |lists|
    ensures forall j :: 0 <= j < |lists| ==> (m[j] <==> lists[j] == self)
    decreases |lists|
  {
    if lists == [] then [] else SelfMask(lists[..|lists| - 1], self) + [lists[|lists| - 1] == self]
  }

  /** The slices of a sequence of lists. */
  ghost function Contents(lists: seq<AlertList>): (c: seq<seq<Alert>>)
    reads set j | 0 <= j < |lists| :: lists[j]
    ensures |c| == |lists|
    ensures forall j :: 0 <= j < |lists| ==> c[j] == lists[j].alerts
    decreases |lists|
  {
    if lists == [] then [] else Contents(lists[..|lists| - 1]) + [lists[|lists| - 1].alerts]
  }

  /** An AlertList: the ordered batch of alerts gathered for one container or one cycle. */
  class AlertList {
    var alerts: seq<Alert>

    /** &AlertList{Alerts: []Alert{}} */
    constructor()
      ensures alerts == []
    {
      alerts := [];
    }

    /** ShouldSend: there is something to send. */
    function ShouldSend(): (r: bool)
      reads this
      ensures r <==> Len() > 0
      ensures !r <==> alerts == []
    {
      |alerts| > 0
    }

    /** Len: the number of alerts. */
    function Len(): (n: nat)
      reads this
      ensures n == 0 <==> alerts == []
    {
      |alerts|
    }

    /** Add: one alert at the end, the earlier ones untouched. */
    method Add(message: string, title: string, e: Option<string>)
      modifies this
      ensures alerts == old(alerts) + [Alert(message, title, e)]
      ensures Len() == old(Len()) + 1
    {
      alerts := alerts + [Alert(message, title, e)];
    }

    /** Clear: the list is empty afterwards. */
    method Clear()
      modifies this
      ensures alerts == []
      ensures !ShouldSend()
    {
      alerts := [];
    }

    /**
     * Concat: the alerts of each argument, in argument order, appended one by
     * one. An argument that is the receiver contributes what the receiver held
     * when the loop reached it.
     */
    method Concat(lists: seq<AlertList>)
      modifies this
      ensures alerts == Appended(old(alerts), SelfMask(lists, this), old(Contents(lists)))
    {
      ghost var mask := SelfMask(lists, this);
      ghost var contents := Contents(lists);
      ghost var start := alerts;
      var j := 0;
      while j < |lists|
        invariant 0 <= j <= |lists|
        invariant alerts == Appended(start, mask[..j], contents[..j])
        invariant forall i :: 0 <= i < |lists| && lists[i] != this ==> lists[i].alerts == contents[i]
      {
        var v := lists[j];
        var snapshot := v.alerts;
        assert snapshot == (if mask[j] then Appended(start, mask[..j], contents[..j]) else contents[j]);
        ghost var before := alerts;
        var k := 0;
        while k < |snapshot|
          invariant 0 <= k <= |snapshot|
          invariant alerts == before + snapshot[..k]
          invariant forall i :: 0 <= i < |lists| && lists[i] != this ==> lists[i].alerts == contents[i]
        {
          assert snapshot[..k + 1] == snapshot[..k] + [snapshot[k]];
          alerts := alerts + [snapshot[k]];
          k := k + 1;
        }
        assert snapshot[..k] == snapshot;
        AppendedStep(start, mask, contents, j);
        j := j + 1;
      }
      assert mask[..j] == mask;
      assert contents[..j] == contents;
    }

    /** AlertList.Dump: each alert's Dump followed by a blank line; "" for an empty list. */
    method Dump() returns (s: string)
      ensures s == Rendered(AsDump, alerts)
      ensures alerts == [] ==> s == ""
    {
      s := "";
      var i := 0;
      while i < |alerts|
        invariant 0 <= i <= |alerts|
        invariant s == Rendered(AsDump, alerts[..i])
      {
        RenderedStep(AsDump, alerts, i);
        s := s + (alerts[i].Dump() + "\n\n");
        i := i + 1;
      }
      assert alerts[..i] == alerts;
    }

    /** AlertList.DumpEmail: each alert's DumpEmail followed by a blank line; "" for an empty list. */
    method DumpEmail() returns (s: string)
      ensures s == Rendered(AsDumpEmail, alerts)
      ensures alerts == [] ==> s == ""
    {
      s := "";
      var i := 0;
      while i < |alerts|
        invariant 0 <= i <= |alerts|
        invariant s == Rendered(AsDumpEmail, alerts[..i])
      {
        RenderedStep(AsDumpEmail, alerts, i);
        s := s + (alerts[i].DumpEmail() + "\n\n");
        i := i + 1;
      }
      assert alerts[..i] == alerts;
    }

    /** AlertList.Message: each message followed by one space. */
    method Message() returns (s: string)
      ensures s == Rendered(AsMessage, alerts)
    {
      s := "";
      var i := 0;
      while i < |alerts|
        invariant 0 <= i <= |alerts|
        invariant s == Rendered(AsMessage, alerts[..i])
      {
        RenderedStep(AsMessage, alerts, i);
        s := s + (alerts[i].message + " ");
        i := i + 1;
      }
      assert alerts[..i] == alerts;
    }

    /** AlertList.Title: each title followed by one space. */
    method Title() returns (s: string)
      ensures s == Rendered(AsTitle, alerts)
    {
      s := "";
      var i := 0;
      while i < |alerts|
        invariant 0 <= i <= |alerts|
        invariant s == Rendered(AsTitle, alerts[..i])
      {
        RenderedStep(AsTitle, alerts, i);
        s := s + (alerts[i].title + " ");
        i := i + 1;
      }
      assert alerts[..i] == alerts;
    }

    /** Evaluate: the batch goes to every active channel, and only when it is not empty. */
    method Evaluate(channels: seq<Alerter>, outbox: Outbox)
      modifies outbox
      ensures outbox.sent == old(outbox.sent) + (if alerts != [] then [Dispatch(alerts, channels)] else [])
    {
      if ShouldSend() {
        outbox.Send(alerts, channels);
      }
    }
  }

  /** One batch handed to the channels by AlertList.Send. */
  datatype Dispatch = Dispatch(batch: seq<Alert>, channels: seq<Alerter>)

  /** The record of every batch sent, in order. */
  class Outbox {
    var sent: seq<Dispatch>

    constructor()
      ensures sent == []
    {
      sent := [];
    }

    /** AlertList.Send: logs the batch and hands it to each channel. */
    method Send(batch: seq<Alert>, channels: seq<Alerter>)
      modifies this
      ensures sent == old(sent) + [Dispatch(batch, channels)]
    {
      sent := sent + [Dispatch(batch, channels)];
    }
  }
}
