/**
 * The history window (packages/assistant-runtime/src/assistant-kit-history-window.ts):
 * the end of the history that starts with a request and stays within two limits.
 */
module HistoryWindow {
  datatype Role = User | Assistant | Tool

  /** A message with the ids of the tool calls it makes and of those it answers. */
  datatype Message = Message(role: Role, calls: set<string>, results: set<string>)

  predicate Begins(m: Message) {
    m.role.User?
  }

  function Requests(messages: seq<Message>): nat {
    if messages == [] then 0
    else Requests(messages[..|messages| - 1]) + if Begins(messages[|messages| - 1]) then 1 else 0
  }

  /** Where the requests among the first messages begin, in order. */
  function TurnStarts(messages: seq<Message>, n: nat): (starts: seq<nat>)
    requires n <= |messages|
    ensures |starts| == Requests(messages[..n])
    ensures forall k :: 0 <= k < |starts| ==> starts[k] < n && Begins(messages[starts[k]])
    ensures forall j, k :: 0 <= j < k < |starts| ==> starts[j] < starts[k]
    ensures forall i :: 0 <= i < n && Begins(messages[i]) ==> i in starts
  {
    if n == 0 then []
    else
      assert messages[..n][..n - 1] == messages[..n - 1];
      TurnStarts(messages, n - 1) + if Begins(messages[n - 1]) then [n - 1] else []
  }

  lemma {:induction false} RequestsJoin(a: seq<Message>, b: seq<Message>)
    ensures Requests(a + b) == Requests(a) + Requests(b)
    decreases |b|
  {
    if b == [] {
      assert a + b == a;
    } else {
      assert (a + b)[..|a + b| - 1] == a + b[..|b| - 1];
      RequestsJoin(a, b[..|b| - 1]);
    }
  }

  /** Where the requests begin. */
  function Starts(messages: seq<Message>): (starts: seq<nat>)
    ensures |starts| == Requests(messages)
    ensures forall k :: 0 <= k < |starts| ==> starts[k] < |messages| && Begins(messages[starts[k]])
    ensures forall j, k :: 0 <= j < k < |starts| ==> starts[j] < starts[k]
  {
    assert messages[..|messages|] == messages;
    TurnStarts(messages, |messages|)
  }

  lemma StartOf(messages: seq<Message>, i: nat) returns (k: nat)
    requires i < |messages| && Begins(messages[i])
    ensures k < |Starts(messages)| && Starts(messages)[k] == i
  {
    assert i in Starts(messages);
    k :| k < |Starts(messages)| && Starts(messages)[k] == i;
  }

  /** The requests from the k-th start on are all but the first k. */
  lemma RequestsFrom(messages: seq<Message>, k: nat)
    requires k < Requests(messages)
    ensures Requests(messages[Starts(messages)[k]..]) == Requests(messages) - k
  {
    var c := Starts(messages)[k];
    StartsBefore(messages, |messages|, k);
    hide Requests, TurnStarts, Starts;
    RequestsJoin(messages[..c], messages[c..]);
    assert messages[..c] + messages[c..] == messages;
  }

  lemma {:induction false} StartsBefore(messages: seq<Message>, n: nat, k: nat)
    requires n <= |messages| && k < |TurnStarts(messages, n)|
    ensures Requests(messages[..TurnStarts(messages, n)[k]]) == k
    decreases n
  {
    assert messages[..n][..n - 1] == messages[..n - 1];
    var before := TurnStarts(messages, n - 1);
    if k < |before| {
      StartsBefore(messages, n - 1, k);
      assert TurnStarts(messages, n)[k] == before[k];
    } else {
      assert TurnStarts(messages, n)[k] == n - 1;
    }
  }

  // ------------------------------------------------------------------- the window

  /** A place where the history may be cut: a request begins there, and what follows is small enough. */
  ghost predicate Admissible(messages: seq<Message>, turns: int, messagesMax: int, c: int) {
    && 0 <= c < |messages| && Begins(messages[c])
    && Requests(messages[c..]) <= turns && |messages[c..]| <= messagesMax
  }

  /** The last place where a request begins. */
  ghost predicate Newest(messages: seq<Message>, c: int) {
    && 0 <= c < |messages| && Begins(messages[c])
    && forall i :: c < i < |messages| ==> !Begins(messages[i])
  }

  method FindTurnStarts(messages: seq<Message>) returns (starts: seq<nat>)
    ensures starts == Starts(messages)
  {
    starts := [];
    for index := 0 to |messages|
      invariant starts == TurnStarts(messages, index)
    {
      if messages[index].role.User? {
        starts := starts + [index];
      }
    }
  }

  /** The start the turn limit points at. */
  function FirstKept(starts: seq<nat>, turns: int): nat
    requires turns > 0
  {
    if |starts| <= turns then 0 else |starts| - turns
  }

  /** The start the loop stops at: the first from there on that is small enough, or the last. */
  ghost predicate StopsAt(messages: seq<Message>, starts: seq<nat>, messagesMax: int, first: nat, j: nat) {
    && first <= j < |starts|
    && (forall k :: first <= k < j ==> |messages| - starts[k] > messagesMax)
    && (j == |starts| - 1 || |messages| - starts[j] <= messagesMax)
  }

  method FindCut(messages: seq<Message>, starts: seq<nat>, first: nat, messagesMax: int) returns (cut: nat)
    requires first < |starts|
    requires forall j, k :: 0 <= j < k < |starts| ==> starts[j] < starts[k]
    requires forall k :: 0 <= k < |starts| ==> starts[k] < |messages|
    ensures exists j: nat :: StopsAt(messages, starts, messagesMax, first, j) && cut == starts[j]
  {
    cut := starts[first];
    ghost var j := first;
    var k := 0;
    while k < |starts|
      invariant 0 <= k <= |starts|
      invariant j == (if k <= first then first else k - 1)
      invariant cut == starts[j]
      invariant forall i :: first <= i < k ==> |messages| - starts[i] > messagesMax
    {
      var start := starts[k];
      if start < starts[first] {
        k := k + 1;
        continue;
      }
      j := k;
      if |messages| - start <= messagesMax {
        cut := start;
        break;
      }
      cut := start;
      k := k + 1;
    }
    assert StopsAt(messages, starts, messagesMax, first, j);
  }

  /**
   * The window.  With at least one turn asked for and a request in the history, it
   * is the longest end of the history that begins a request and stays within both
   * limits, or the newest request when none does; otherwise it is everything.  It
   * holds no call without its result, nor a result without its call, if the history
   * held none.
   */
  method AssistantHistoryWindow(messages: seq<Message>, turns: int, messagesMax: int) returns (window: seq<Message>)
    ensures turns <= 0 || Requests(messages) == 0 ==> window == messages
    ensures turns > 0 && Requests(messages) > 0 ==>
              && |window| <= |messages|
              && var at := |messages| - |window|;
              && window == messages[at..]
              && (Admissible(messages, turns, messagesMax, at) || Newest(messages, at))
              && forall c :: 0 <= c < at ==> !Admissible(messages, turns, messagesMax, c)
    ensures Paired(messages) ==> Paired(window)
  {
    var starts := FindTurnStarts(messages);
    if |starts| == 0 || turns <= 0 {
      return messages;
    }
    var first := FirstKept(starts, turns);
    var cut := FindCut(messages, starts, first, messagesMax);
    ghost var j: nat :| StopsAt(messages, starts, messagesMax, first, j) && cut == starts[j];
    CutIsWithin(messages, turns, messagesMax, j);
    NoEarlierCut(messages, turns, messagesMax, j);
    window := messages[cut..];
    if Paired(messages) {
      CutKeepsPairs(messages, cut);
    }
  }

  /** The cut that the loop stops at is within both limits, or begins the newest request. */
  lemma CutIsWithin(messages: seq<Message>, turns: int, messagesMax: int, j: nat)
    requires turns > 0 && Requests(messages) > 0
    requires StopsAt(messages, Starts(messages), messagesMax, FirstKept(Starts(messages), turns), j)
    ensures var c := Starts(messages)[j]; Admissible(messages, turns, messagesMax, c) || Newest(messages, c)
  {
    hide Requests, Starts, TurnStarts;
    var starts := Starts(messages);
    RequestsFrom(messages, j);
    if j == |starts| - 1 {
      forall i | starts[j] < i < |messages| ensures !Begins(messages[i]) {
        if Begins(messages[i]) {
          var k := StartOf(messages, i);
        }
      }
    }
  }

  /** And no earlier place is within both. */
  lemma NoEarlierCut(messages: seq<Message>, turns: int, messagesMax: int, j: nat)
    requires turns > 0 && Requests(messages) > 0
    requires StopsAt(messages, Starts(messages), messagesMax, FirstKept(Starts(messages), turns), j)
    ensures forall c :: 0 <= c < Starts(messages)[j] ==> !Admissible(messages, turns, messagesMax, c)
  {
    hide Requests, Starts, TurnStarts;
    var starts := Starts(messages);
    forall c | 0 <= c < starts[j] ensures !Admissible(messages, turns, messagesMax, c) {
      if Begins(messages[c]) {
        var k := StartOf(messages, c);
        assert k < j;
        RequestsFrom(messages, k);
      }
    }
  }

  // --------------------------------------------------------------- calls and results

  /** No request begins after `i` and up to `j`. */
  ghost predicate SameRequest(messages: seq<Message>, i: int, j: int)
    requires 0 <= i <= j < |messages|
  {
    forall k :: i < k <= j ==> !Begins(messages[k])
  }

  ghost predicate Called(messages: seq<Message>, j: int, id: string)
    requires 0 <= j < |messages|
  {
    exists i :: 0 <= i < j && id in messages[i].calls && SameRequest(messages, i, j)
  }

  ghost predicate Answered(messages: seq<Message>, i: int, id: string)
    requires 0 <= i < |messages|
  {
    exists j :: i < j < |messages| && id in messages[j].results && SameRequest(messages, i, j)
  }

  /** Every result has its call before it and every call its result after it, in one request. */
  ghost predicate Paired(messages: seq<Message>) {
    && (forall j, id :: 0 <= j < |messages| && id in messages[j].results ==> Called(messages, j, id))
    && (forall i, id :: 0 <= i < |messages| && id in messages[i].calls ==> Answered(messages, i, id))
  }

  /** Cutting where a request begins separates no call from its result. */
  lemma CutKeepsPairs(messages: seq<Message>, c: nat)
    requires Paired(messages) && c < |messages| && Begins(messages[c])
    ensures Paired(messages[c..])
  {
    var w := messages[c..];
    forall j, id | 0 <= j < |w| && id in w[j].results ensures Called(w, j, id) {
      assert Called(messages, c + j, id);
      var i :| 0 <= i < c + j && id in messages[i].calls && SameRequest(messages, i, c + j);
      assert i >= c;
      assert w[i - c] == messages[i];
      assert SameRequest(w, i - c, j);
    }
    forall i, id | 0 <= i < |w| && id in w[i].calls ensures Answered(w, i, id) {
      assert Answered(messages, c + i, id);
      var j :| c + i < j < |messages| && id in messages[j].results && SameRequest(messages, c + i, j);
      assert w[j - c] == messages[j];
      assert SameRequest(w, i, j - c);
    }
  }
}
