/**
 * The image field of a send request is a data-URI-like string; the application
 * keeps `image_data.split(',')[1]`, the text between the first comma and the next
 * one (or the end), and fails when there is no comma at all.
 */
module ImagePayload {

  import opened Wrappers

  const Comma: char := ','

  /** Python's `s.split(sep)` for a one-character separator: the pieces between
      separators, always at least one. */
  function Split(s: string, sep: char): (pieces: seq<string>)
    ensures |pieces| >= 1
    ensures forall i :: 0 <= i < |pieces| ==> sep !in pieces[i]
  {
    if |s| == 0 then [""]
    else
      var rest := Split(s[1..], sep);
      if s[0] == sep then [""] + rest
      else [[s[0]] + rest[0]] + rest[1..]
  }

  /** `sep.join(pieces)`. */
  function Join(pieces: seq<string>, sep: char): string
    requires |pieces| >= 1
  {
    if |pieces| == 1 then pieces[0] else pieces[0] + [sep] + Join(pieces[1..], sep)
  }

  /** Joining the pieces of a split gives back the string. */
  lemma {:induction false} JoinSplit(s: string, sep: char)
    ensures Join(Split(s, sep), sep) == s
  {
    if |s| > 0 {
      JoinSplit(s[1..], sep);
      var rest := Split(s[1..], sep);
      if s[0] == sep {
        assert ([""] + rest)[1..] == rest;
      } else {
        var p := [[s[0]] + rest[0]] + rest[1..];
        if |rest| > 1 {
          assert p[1..] == rest[1..];
          assert s == [s[0]] + s[1..];
        }
      }
    }
  }

  /** Splitting a join of separator-free pieces gives back the pieces. */
  lemma {:induction false} SplitJoin(pieces: seq<string>, sep: char)
    requires |pieces| >= 1
    requires forall i :: 0 <= i < |pieces| ==> sep !in pieces[i]
    ensures Split(Join(pieces, sep), sep) == pieces
  {
    if |pieces| == 1 {
      SplitFree(pieces[0], sep);
    } else {
      SplitJoin(pieces[1..], sep);
      SplitPrefix(pieces[0], sep, Join(pieces[1..], sep));
    }
  }

  /** A string without the separator splits into itself. */
  lemma {:induction false} SplitFree(s: string, sep: char)
    requires sep !in s
    ensures Split(s, sep) == [s]
  {
    if |s| > 0 {
      assert sep !in s[1..];
      SplitFree(s[1..], sep);
      assert s == [s[0]] + s[1..];
    }
  }

  /** A separator-free head followed by a separator splits off as the first piece. */
  lemma {:induction false} SplitPrefix(head: string, sep: char, tail: string)
    requires sep !in head
    ensures Split(head + [sep] + tail, sep) == [head] + Split(tail, sep)
  {
    var s := head + [sep] + tail;
    if |head| == 0 {
      assert s == [sep] + tail;
      assert s[1..] == tail;
    } else {
      assert s[1..] == head[1..] + [sep] + tail;
      assert sep !in head[1..];
      SplitPrefix(head[1..], sep, tail);
      assert head == [head[0]] + head[1..];
    }
  }

  /** The position of the first separator, or |s| when there is none. */
  function FirstIndex(s: string, sep: char): (i: nat)
    ensures i <= |s|
    ensures sep !in s[..i]
    ensures i < |s| ==> s[i] == sep
  {
    if |s| == 0 then 0
    else if s[0] == sep then 0
    else
      var j := FirstIndex(s[1..], sep);
      assert s[..j + 1] == [s[0]] + s[1..][..j];
      j + 1
  }

  /** The first piece of a split runs up to the first separator, and the remaining
      pieces are the split of what follows it. */
  lemma {:induction false} SplitFirst(s: string, sep: char)
    ensures var i := FirstIndex(s, sep);
      Split(s, sep)[0] == s[..i] &&
      (i < |s| ==> Split(s, sep)[1..] == Split(s[i + 1..], sep)) &&
      (i == |s| ==> |Split(s, sep)| == 1)
  {
    var i := FirstIndex(s, sep);
    var head, tail := s[..i], if i < |s| then s[i + 1..] else "";
    if i < |s| {
      assert s == head + [sep] + tail;
      SplitPrefix(head, sep, tail);
    } else {
      assert s == head;
      SplitFree(s, sep);
    }
  }

  /** `image_data.split(',')[1]`: None stands for the IndexError of a payload without
      a comma. Otherwise the result is the text after the first comma, up to the next
      comma or the end. */
  function Payload(data: string): (r: Option<string>)
    ensures r.Some? <==> Comma in data
    ensures r.Some? ==>
      var rest := data[FirstIndex(data, Comma) + 1..];
      r.value == rest[..FirstIndex(rest, Comma)]
  {
    SplitFirst(data, Comma);
    var pieces := Split(data, Comma);
    if |pieces| > 1 then
      SplitFirst(data[FirstIndex(data, Comma) + 1..], Comma);
      Some(pieces[1])
    else None
  }
}
