/**
 * The hand-off of emotion results in main.py: `detect_mood` puts the dominant
 * emotion of an analysis into the shared `queue.Queue`, and the render loop
 * takes from it with `get_nowait`. The queue is an unbounded FIFO.
 */
module MoodQueue {
  import opened Common

  /** A value of the analyser's per-face result dictionary. */
  datatype Value =
    | Text(text: string)  // a label, such as the value of `dominant_emotion`
    | Other               // anything else, such as the score dictionary under `emotion`

  /** What `DeepFace.analyze` gave: one result dictionary per face, or an exception. */
  datatype Analysis =
    | Raised
    | Predictions(faces: seq<map<string, Value>>)

  /** An unbounded first-in first-out queue (`queue.Queue()` with no maximum size). */
  class FifoQueue<T> {
    var items: seq<T>

    constructor ()
      ensures items == []
    {
      items := [];
    }

    /** `q.put(x)`: never blocks, appends at the back. */
    method Put(x: T)
      modifies this
      ensures items == old(items) + [x]
    {
      items := items + [x];
    }

    /** `q.get_nowait()`: the oldest item, or `None` where Python raises `queue.Empty`. */
    method GetNowait() returns (r: Option<T>)
      modifies this
      ensures old(items) == [] ==> r == None && items == []
      ensures old(items) != [] ==> r == Some(old(items)[0]) && items == old(items)[1..]
    {
      if items == [] {
        r := None;
      } else {
        r := Some(items[0]);
        items := items[1..];
      }
    }
  }

  /** The first result dictionary carries both keys that `detect_mood` checks. */
  predicate Complete(analysis: Analysis)
  {
    analysis.Predictions? && |analysis.faces| > 0 &&
    "emotion" in analysis.faces[0] && "dominant_emotion" in analysis.faces[0]
  }

  /**
   * What one `detect_mood` call adds to the queue: the dominant emotion of the
   * first result when it carries both keys, and nothing otherwise (an exception,
   * including the `IndexError` of an empty result list, is caught and printed).
   */
  function Handoff(analysis: Analysis): (r: seq<Value>)
    ensures |r| <= 1
    ensures |r| == 1 <==> Complete(analysis)
    ensures |r| == 1 ==> r[0] == analysis.faces[0]["dominant_emotion"]
  {
    match analysis
    case Raised => []
    case Predictions(faces) =>
      if |faces| == 0 then []
      else
        var data := faces[0];
        if "emotion" in data && "dominant_emotion" in data then [data["dominant_emotion"]] else []
  }

  /** Only the first result dictionary matters; results for further faces are ignored. */
  lemma HandoffFirstOnly(first: map<string, Value>, rest: seq<map<string, Value>>)
    ensures Handoff(Predictions([first] + rest)) == Handoff(Predictions([first]))
  {
  }

  /** `detect_mood(frame, q)` for a frame whose analysis is `analysis`. */
  method DetectMood(analysis: Analysis, q: FifoQueue<Value>)
    modifies q
    ensures q.items == old(q.items) + Handoff(analysis)
    ensures Complete(analysis) ==> q.items == old(q.items) + [analysis.faces[0]["dominant_emotion"]]
    ensures !Complete(analysis) ==> q.items == old(q.items)
  {
    if analysis.Raised? {
      return;  // the exception is caught and printed
    }
    var faces := analysis.faces;
    if |faces| == 0 {
      return;  // `predictions[0]` raises IndexError, caught the same way
    }
    var data := faces[0];
    if "emotion" in data && "dominant_emotion" in data {
      q.Put(data["dominant_emotion"]);
    }
  }

  /**
   * Two analyses completing before the render loop takes one: the take yields
   * the OLDER emotion and the newer one stays queued. The queue keeps every
   * result; nothing is overwritten.
   */
  method TwoResultsThenTake(first: string, second: string) returns (taken: Option<Value>, left: seq<Value>)
    ensures taken == Some(Text(first))
    ensures left == [Text(second)]
  {
    var q := new FifoQueue<Value>();
    DetectMood(Predictions([map["emotion" := Other, "dominant_emotion" := Text(first)]]), q);
    DetectMood(Predictions([map["emotion" := Other, "dominant_emotion" := Text(second)]]), q);
    taken := q.GetNowait();
    left := q.items;
  }

  /** A failing analysis leaves an earlier unread result in place for the next take. */
  method FailureKeepsEarlier(earlier: string) returns (taken: Option<Value>)
    ensures taken == Some(Text(earlier))
  {
    var q := new FifoQueue<Value>();
    DetectMood(Predictions([map["emotion" := Other, "dominant_emotion" := Text(earlier)]]), q);
    DetectMood(Raised, q);
    DetectMood(Predictions([map["dominant_emotion" := Text("happy")]]), q);
    taken := q.GetNowait();
  }
}
