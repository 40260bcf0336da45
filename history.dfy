/**
 * `add_to_history` (src/tools/mcp_tools.py): the global log of analyses.  Each call appends
 * one entry and then, when the log has grown past fifty entries, drops the oldest one.
 * The clock reading is a parameter.
 */
module History {
  /** One log entry: the tool's name, the `time.time()` reading in seconds, and its result. */
  datatype Entry<R> = Entry(tool: string, timestamp: real, result: R)

  /** How many entries the log keeps. */
  const Capacity: nat := 50

  /** The log after one append: the new entry goes last, and the first entry goes when the
      log would exceed the capacity. */
  function Appended<T>(log: seq<T>, e: T): seq<T> {
    var s := log + [e];
    if |s| > Capacity then s[1..] else s
  }

  /** On a log within the capacity, an append keeps it within the capacity, puts the new
      entry last, and removes at most the oldest entry, keeping the rest in order. */
  lemma AppendedFacts<T>(log: seq<T>, e: T)
    requires |log| <= Capacity
    ensures |Appended(log, e)| <= Capacity
    ensures |Appended(log, e)| > 0 && Appended(log, e)[|Appended(log, e)| - 1] == e
    ensures |log| < Capacity ==> Appended(log, e) == log + [e]
    ensures |log| == Capacity ==> Appended(log, e) == log[1..] + [e]
  {
    if |log| == Capacity {
      assert (log + [e])[1..] == log[1..] + [e];
    }
  }

  /** The log after appending `es` one by one to an empty log. */
  function Replay<T>(es: seq<T>): seq<T> {
    if |es| == 0 then [] else Appended(Replay(es[..|es| - 1]), es[|es| - 1])
  }

  lemma {:induction false} ReplayLength<T>(es: seq<T>)
    ensures |Replay(es)| == if |es| < Capacity then |es| else Capacity
  {
    if |es| > 0 {
      ReplayLength(es[..|es| - 1]);
    }
  }

  /** The log always holds the most recent entries, oldest first: the last fifty, or all of
      them while there are fewer. */
  lemma {:induction false} ReplayKeepsLatest<T>(es: seq<T>)
    ensures |Replay(es)| == if |es| < Capacity then |es| else Capacity
    ensures Replay(es) == es[|es| - |Replay(es)|..]
  {
    ReplayLength(es);
    if |es| > 0 {
      var init := es[..|es| - 1];
      var e := es[|es| - 1];
      var r := Replay(init);
      ReplayKeepsLatest(init);
      assert init + [e] == es;
      if |init| >= Capacity {
        assert r + [e] == es[|es| - Capacity - 1..];
        assert (r + [e])[1..] == es[|es| - Capacity..];
      }
    }
  }

  /** The global `analysis_history` list. */
  class AnalysisHistory<R> {
    var entries: seq<Entry<R>>

    predicate Valid()
      reads this
    {
      |entries| <= Capacity
    }

    constructor ()
      ensures entries == [] && Valid()
    {
      entries := [];
    }

    /** `add_to_history(tool, result)` at clock reading `timestamp`. */
    method Add(tool: string, timestamp: real, result: R)
      modifies this
      ensures entries == Appended(old(entries), Entry(tool, timestamp, result))
      ensures old(Valid()) ==> Valid()
    {
      entries := entries + [Entry(tool, timestamp, result)];
      if |entries| > Capacity {
        entries := entries[1..];
      }
    }
  }
}
