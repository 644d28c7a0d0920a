/**
 * The document-prompts panel: the generated questions arrive as one string,
 * which replaces the panel's `prompts` state when the response carries it,
 * and the list shows that string split at each newline.
 */
module DocumentPrompts {
  import opened Wrappers

  const Newline := '\n'

  /** Number of occurrences of `c` in `s`. */
  function CountChar(s: string, c: char): nat
  {
    if s == [] then 0 else (if s[0] == c then 1 else 0) + CountChar(s[1..], c)
  }

  /** `s.split(sep)` for a one-character separator: the pieces between
      separators, an empty piece wherever two separators meet or one starts
      or ends the string, and a single empty piece for the empty string. */
  function Split(s: string, sep: char): (items: seq<string>)
    ensures |items| == CountChar(s, sep) + 1
    ensures forall i :: 0 <= i < |items| ==> sep !in items[i]
  {
    if s == [] then [""]
    else
      var rest := Split(s[1..], sep);
      if s[0] == sep then [""] + rest
      else [[s[0]] + rest[0]] + rest[1..]
  }

  /** `items.join(sep)`. */
  function Join(items: seq<string>, sep: char): string
    requires |items| >= 1
  {
    if |items| == 1 then items[0] else items[0] + [sep] + Join(items[1..], sep)
  }

  /** Joining the pieces with the separator gives back the string. */
  lemma {:induction false} JoinSplit(s: string, sep: char)
    ensures Join(Split(s, sep), sep) == s
  {
    if s != [] {
      JoinSplit(s[1..], sep);
      var rest := Split(s[1..], sep);
      if s[0] == sep {
        assert Split(s, sep)[1..] == rest;
      } else {
        var items := Split(s, sep);
        if |rest| > 1 {
          assert items[1..] == rest[1..];
        }
        assert s == [s[0]] + s[1..];
      }
    }
  }

  /** Splitting a separator-free prefix glued to a string extends the first
      piece only. */
  lemma {:induction false} SplitFreePrefix(x: string, t: string, sep: char)
    requires sep !in x
    ensures Split(x + t, sep) == [x + Split(t, sep)[0]] + Split(t, sep)[1..]
  {
    if x == [] {
      var pieces := Split(t, sep);
      assert x + t == t && x + pieces[0] == pieces[0];
      assert pieces == [pieces[0]] + pieces[1..];
    } else {
      assert (x + t)[1..] == x[1..] + t;
      SplitFreePrefix(x[1..], t, sep);
      assert [x[0]] + (x[1..] + Split(t, sep)[0]) == x + Split(t, sep)[0];
    }
  }

  /** Splitting the join of separator-free pieces gives back the pieces. */
  lemma {:induction false} SplitJoin(items: seq<string>, sep: char)
    requires |items| >= 1
    requires forall i :: 0 <= i < |items| ==> sep !in items[i]
    ensures Split(Join(items, sep), sep) == items
  {
    if |items| == 1 {
      SplitFreePrefix(items[0], [], sep);
      assert items[0] + [] == items[0];
    } else {
      var tail := Join(items[1..], sep);
      SplitJoin(items[1..], sep);
      assert Join(items, sep) == items[0] + ([sep] + tail);
      SplitFreePrefix(items[0], [sep] + tail, sep);
      assert ([sep] + tail)[1..] == tail;
      assert items[0] + "" == items[0];
      assert items == [items[0]] + items[1..];
    }
  }

  /** The list items shown for the current prompts string. */
  function PromptItems(prompts: string): (items: seq<string>)
    ensures |items| == CountChar(prompts, Newline) + 1
    ensures forall i :: 0 <= i < |items| ==> Newline !in items[i]
  {
    Split(prompts, Newline)
  }

  /** The initial empty prompts string shows one empty item. */
  lemma InitialPromptsShowOneEmptyItem()
    ensures PromptItems("") == [""]
  {
  }

  /** How the prompt-generation call settles: it throws, or its response
      lacks `props.data`, or it carries `props.data.questions`, which may be
      null or undefined (`None`). */
  datatype PromptsFetch = Threw | NoData | Questions(questions: Option<string>)

  class PromptsPanel {
    var prompts: string

    constructor ()
      ensures prompts == ""
    {
      prompts := "";
    }

    /** The effect run for a file name: an empty name makes no call; a call
        that throws, a response without data, or null/undefined questions
        leave `prompts` as it was; otherwise the questions replace it. */
    method Refresh(fileName: string, fetched: PromptsFetch) returns (called: bool)
      modifies this`prompts
      ensures called <==> fileName != ""
      ensures prompts == if called && fetched.Questions? && fetched.questions.Some?
                         then fetched.questions.value else old(prompts)
    {
      if fileName == "" {
        return false;
      }
      called := true;
      match fetched {
        case Threw =>
        case NoData =>
        case Questions(q) =>
          if q.Some? {
            prompts := q.value;
          }
      }
    }

    /** The rendered list of prompts. */
    function Items(): (items: seq<string>)
      reads this
      ensures |items| == CountChar(prompts, Newline) + 1
      ensures Join(items, Newline) == prompts
    {
      JoinSplit(prompts, Newline);
      PromptItems(prompts)
    }
  }
}
