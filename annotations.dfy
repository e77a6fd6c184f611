/**
 * The message and annotation formatter of logger.service.ts (lines 103-126):
 * `formatObject` renders each non-null property as a cyan `key=` followed by
 * the inspected value (red for the key "error", white otherwise) and joins
 * them with single spaces; `formatMessage` puts the white message in front.
 *
 * The annotation object is a sequence of (key, value) entries in `for...in`
 * order, None standing for null or undefined; `util.inspect(value, false, 10)`
 * is the parameter `inspect`.
 */
module Annotations {
  import opened Wrappers
  import opened Colors

  type Entry<V> = (string, Option<V>)

  function ValueColor(key: string): Color {
    if key == "error" then FgRed else FgWhite
  }

  /**
   * The text pushed onto `txt` for one non-null property: `key=` and the
   * inspected value, each wrapped in its colour and a reset when colour is on.
   */
  function Segment<V>(colorAllowed: bool, key: string, value: V, inspect: V -> string): (r: string)
    ensures colorAllowed ==> |r| == |key| + |inspect(value)| + 19
    ensures !colorAllowed ==> r == key + "=" + inspect(value)
  {
    FormatText(colorAllowed, FgCyan, key + "=") + FormatText(colorAllowed, ValueColor(key), inspect(value))
  }

  /** Number of entries whose value is neither null nor undefined. */
  function NonNullCount<V>(obj: seq<Entry<V>>): nat {
    if obj == [] then 0 else (if obj[0].1.Some? then 1 else 0) + NonNullCount(obj[1..])
  }

  /** The `txt` array once the loop has seen every entry of obj. */
  function Segments<V>(colorAllowed: bool, obj: seq<Entry<V>>, inspect: V -> string): (r: seq<string>)
    ensures |r| == NonNullCount(obj)
  {
    if obj == [] then []
    else
      var head := match obj[0].1
        case None => []
        case Some(v) => [Segment(colorAllowed, obj[0].0, v, inspect)];
      head + Segments(colorAllowed, obj[1..], inspect)
  }

  /** Array.prototype.join. */
  function Join(parts: seq<string>, sep: string): string {
    if |parts| == 0 then ""
    else if |parts| == 1 then parts[0]
    else parts[0] + sep + Join(parts[1..], sep)
  }

  /**
   * What `formatObject` returns: the segments joined by single spaces. It is
   * empty exactly when every value is null or undefined, the empty object
   * included.
   */
  function ObjectText<V>(colorAllowed: bool, obj: seq<Entry<V>>, inspect: V -> string): (r: string)
    ensures r == "" <==> AllNull(obj)
  {
    NonNullCountZero(obj);
    SegmentsNonEmpty(colorAllowed, obj, inspect);
    Join(Segments(colorAllowed, obj, inspect), " ")
  }

  /** Appending an entry to the object appends at most its own segment. */
  lemma {:induction false} SegmentsSnoc<V>(colorAllowed: bool, obj: seq<Entry<V>>, e: Entry<V>, inspect: V -> string)
    ensures Segments(colorAllowed, obj + [e], inspect)
         == Segments(colorAllowed, obj, inspect)
          + (match e.1 case None => [] case Some(v) => [Segment(colorAllowed, e.0, v, inspect)])
  {
    if obj == [] {
      assert obj + [e] == [e];
    } else {
      assert (obj + [e])[1..] == obj[1..] + [e];
      SegmentsSnoc(colorAllowed, obj[1..], e, inspect);
    }
  }

  /** `formatObject(object)`: the `for...in` loop pushing onto `txt`, then `txt.join(" ")`. */
  method FormatObject<V>(colorAllowed: bool, obj: seq<Entry<V>>, inspect: V -> string) returns (text: string)
    ensures text == ObjectText(colorAllowed, obj, inspect)
  {
    var txt: seq<string> := [];
    for i := 0 to |obj|
      invariant txt == Segments(colorAllowed, obj[..i], inspect)
    {
      var (key, value) := obj[i];
      SegmentsSnoc(colorAllowed, obj[..i], obj[i], inspect);
      assert obj[..i + 1] == obj[..i] + [obj[i]];
      if value.None? {
        continue;
      }
      txt := txt + [Segment(colorAllowed, key, value.value, inspect)];
    }
    assert obj[..|obj|] == obj;
    text := Join(txt, " ");
  }

  /**
   * The segments come in the object's order, one for each non-null entry:
   * entry i lands at the position given by the non-null entries before it.
   */
  lemma {:induction false} SegmentsInOrder<V>(colorAllowed: bool, obj: seq<Entry<V>>, inspect: V -> string, i: nat)
    requires i < |obj| && obj[i].1.Some?
    ensures NonNullCount(obj[..i]) < NonNullCount(obj)
    ensures Segments(colorAllowed, obj, inspect)[NonNullCount(obj[..i])]
         == Segment(colorAllowed, obj[i].0, obj[i].1.value, inspect)
  {
    if i == 0 {
      assert obj[..0] == [];
    } else {
      assert obj[..i][1..] == obj[1..][..i - 1];
      SegmentsInOrder(colorAllowed, obj[1..], inspect, i - 1);
    }
  }

  predicate AllNull<V>(obj: seq<Entry<V>>) {
    forall i :: 0 <= i < |obj| ==> obj[i].1.None?
  }

  lemma {:induction false} NonNullCountZero<V>(obj: seq<Entry<V>>)
    ensures NonNullCount(obj) == 0 <==> AllNull(obj)
  {
    if obj != [] {
      NonNullCountZero(obj[1..]);
      if AllNull(obj[1..]) && obj[0].1.None? {
        forall i | 0 <= i < |obj| ensures obj[i].1.None? {
          if i > 0 {
            assert obj[i] == obj[1..][i - 1];
          }
        }
      }
    }
  }

  /** Every segment holds at least `key=`, so none is empty. */
  lemma {:induction false} SegmentsNonEmpty<V>(colorAllowed: bool, obj: seq<Entry<V>>, inspect: V -> string)
    ensures forall k :: 0 <= k < NonNullCount(obj) ==> Segments(colorAllowed, obj, inspect)[k] != []
  {
    if obj != [] {
      SegmentsNonEmpty(colorAllowed, obj[1..], inspect);
    }
  }

  /**
   * With colour on, `key=` is wrapped in cyan and the value in red exactly
   * when the key is "error", in white otherwise.
   */
  lemma SegmentColors<V>(key: string, value: V, inspect: V -> string)
    ensures var seg := Segment(true, key, value, inspect);
      var at := |key| + 10;
      && |seg| == at + 5 + |inspect(value)| + 4
      && seg[..5] == Code(FgCyan)
      && seg[5..at - 4] == key + "="
      && seg[at - 4..at] == Code(Reset)
      && (seg[at..at + 5] == Code(FgRed) <==> key == "error")
      && (seg[at..at + 5] == Code(FgWhite) <==> key != "error")
      && seg[at + 5..|seg| - 4] == inspect(value)
      && seg[|seg| - 4..] == Code(Reset)
  {
    var seg := Segment(true, key, value, inspect);
    var at := |key| + 10;
    assert seg[at..at + 5] == Code(ValueColor(key));
  }

  /** Keys and inspected values free of escape characters. */
  predicate PlainEntries<V>(obj: seq<Entry<V>>, inspect: V -> string) {
    forall i :: 0 <= i < |obj| ==> NoEsc(obj[i].0) && (obj[i].1.Some? ==> NoEsc(inspect(obj[i].1.value)))
  }

  lemma RemoveColorSegmentPrefix<V>(colorAllowed: bool, key: string, value: V, inspect: V -> string, rest: string)
    requires NoEsc(key) && NoEsc(inspect(value))
    ensures RemoveColor(Segment(colorAllowed, key, value, inspect) + rest)
         == Segment(false, key, value, inspect) + RemoveColor(rest)
  {
    var name := key + "=";
    assert NoEsc(name) by {
      forall i | 0 <= i < |name| ensures name[i] != Esc {
        if i < |key| {
          assert name[i] == key[i];
        }
      }
    }
    RemoveColorTwoFormatted(colorAllowed, FgCyan, name, ValueColor(key), inspect(value), rest);
  }

  /** Two formatted pieces in a row strip to their two plain texts. */
  lemma RemoveColorTwoFormatted(colorAllowed: bool, c: Color, t: string, d: Color, u: string, rest: string)
    requires NoEsc(t) && NoEsc(u)
    ensures RemoveColor((FormatText(colorAllowed, c, t) + FormatText(colorAllowed, d, u)) + rest)
         == (t + u) + RemoveColor(rest)
  {
    var a := FormatText(colorAllowed, c, t);
    var b := FormatText(colorAllowed, d, u);
    ConcatAssoc(a, b, rest);
    RemoveColorFormattedPrefix(colorAllowed, c, t, b + rest);
    RemoveColorFormattedPrefix(colorAllowed, d, u, rest);
    ConcatAssoc(t, u, RemoveColor(rest));
  }


  /** Stripping a joined list whose head is a segment strips the head on its own. */
  lemma RemoveColorJoinCons<V>(colorAllowed: bool, key: string, value: V, inspect: V -> string,
                               rest: seq<string>, restPlain: seq<string>)
    requires NoEsc(key) && NoEsc(inspect(value))
    requires |rest| == |restPlain| && RemoveColor(Join(rest, " ")) == Join(restPlain, " ")
    ensures RemoveColor(Join([Segment(colorAllowed, key, value, inspect)] + rest, " "))
         == Join([Segment(false, key, value, inspect)] + restPlain, " ")
  {
    var seg := Segment(colorAllowed, key, value, inspect);
    var segPlain := Segment(false, key, value, inspect);
    if |rest| == 0 {
      assert [seg] + rest == [seg] && [segPlain] + restPlain == [segPlain];
      RemoveColorSegmentPrefix(colorAllowed, key, value, inspect, []);
      assert seg + [] == seg && segPlain + [] == segPlain;
    } else {
      var j := Join(rest, " ");
      JoinCons(seg, rest, " ");
      JoinCons(segPlain, restPlain, " ");
      RemoveColorSegmentPrefix(colorAllowed, key, value, inspect, " " + j);
      RemoveColorPlainPrefix(" ", j);
    }
  }

  lemma JoinCons(head: string, rest: seq<string>, sep: string)
    requires |rest| > 0
    ensures Join([head] + rest, sep) == head + (sep + Join(rest, sep))
  {
    assert ([head] + rest)[1..] == rest;
  }

  /**
   * Stripping the colours from `formatObject`'s output gives what it renders
   * with colour off: `key=value` segments joined by single spaces.
   */
  lemma {:induction false} RemoveColorObjectText<V>(colorAllowed: bool, obj: seq<Entry<V>>, inspect: V -> string)
    requires PlainEntries(obj, inspect)
    ensures RemoveColor(ObjectText(colorAllowed, obj, inspect)) == ObjectText(false, obj, inspect)
  {
    if obj != [] {
      var tail := obj[1..];
      assert PlainEntries(tail, inspect) by {
        forall i | 0 <= i < |tail| ensures NoEsc(tail[i].0) && (tail[i].1.Some? ==> NoEsc(inspect(tail[i].1.value))) {
          assert tail[i] == obj[i + 1];
        }
      }
      RemoveColorObjectText(colorAllowed, tail, inspect);
      var rest := Segments(colorAllowed, tail, inspect);
      var restPlain := Segments(false, tail, inspect);
      match obj[0].1
      case None =>
        assert Segments(colorAllowed, obj, inspect) == rest;
        assert Segments(false, obj, inspect) == restPlain;
      case Some(v) =>
        assert NoEsc(obj[0].0) && NoEsc(inspect(v));
        RemoveColorJoinCons(colorAllowed, obj[0].0, v, inspect, rest, restPlain);
    }
  }

  /**
   * Module-level `formatMessage(message, optionalParams)`: the message in
   * white, then, when a params object is given (even an empty one), a space
   * and `formatObject(optionalParams)`.
   */
  function FormatMessage<V>(colorAllowed: bool, message: string, params: Option<seq<Entry<V>>>, inspect: V -> string): (r: string)
    ensures var head := FormatText(colorAllowed, FgWhite, message);
      && head <= r
      && (params.None? <==> |r| == |head|)
      && (params.Some? ==> r[|head|] == ' ' && r[|head| + 1..] == ObjectText(colorAllowed, params.value, inspect))
  {
    match params
    case None => FormatText(colorAllowed, FgWhite, message)
    case Some(obj) => FormatText(colorAllowed, FgWhite, message) + " " + ObjectText(colorAllowed, obj, inspect)
  }

  /**
   * The colour-stripped message is the message itself, followed, when params
   * are given, by a space and the plain `key=value` annotations.
   */
  lemma RemoveColorFormatMessage<V>(colorAllowed: bool, message: string, params: Option<seq<Entry<V>>>, inspect: V -> string)
    requires NoEsc(message)
    requires params.Some? ==> PlainEntries(params.value, inspect)
    ensures RemoveColor(FormatMessage(colorAllowed, message, params, inspect))
         == match params
            case None => message
            case Some(obj) => message + " " + ObjectText(false, obj, inspect)
  {
    match params
    case None =>
      RemoveColorRoundTrip(colorAllowed, FgWhite, message);
    case Some(obj) =>
      var o := ObjectText(colorAllowed, obj, inspect);
      ConcatAssoc(FormatText(colorAllowed, FgWhite, message), " ", o);
      RemoveColorFormattedPrefix(colorAllowed, FgWhite, message, " " + o);
      RemoveColorPlainPrefix(" ", o);
      RemoveColorObjectText(colorAllowed, obj, inspect);
      ConcatAssoc(message, " ", ObjectText(false, obj, inspect));
  }

  /**
   * A params object whose values are all null or undefined still adds the
   * separating space: the line ends in a trailing blank.
   */
  lemma FormatMessageAllNull<V>(colorAllowed: bool, message: string, obj: seq<Entry<V>>, inspect: V -> string)
    requires AllNull(obj)
    ensures FormatMessage(colorAllowed, message, Some(obj), inspect) == FormatText(colorAllowed, FgWhite, message) + " "
  {
    assert ObjectText(colorAllowed, obj, inspect) == "";
  }
}
