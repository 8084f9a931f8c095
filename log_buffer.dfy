/**
 * The pure half of the debug panel's console interception: turning the arguments of
 * one console.log / console.error call into a line of text, and the update the panel
 * applies to its buffer of lines, `[...prev, entry].slice(-maxLogs)`.
 */
module LogBuffer {
  import opened Wrappers

  /** The panel's fixed buffer capacity. */
  const MaxLogs: nat := 50

  /** Which console method was called. */
  datatype Level = Info | Error

  /**
   * What JSON.stringify(arg, null, 2) gives for an argument whose typeof is "object":
   * its pretty-printed text, undefined (a toJSON that returns undefined), or a thrown
   * TypeError (a cyclic structure, a BigInt inside).
   */
  datatype JsonText = Serialized(text: string) | Undefined | Unserializable

  /** One console argument: an object (null and arrays included) or anything else, with String(arg). */
  datatype LogArg = ObjectArg(json: JsonText) | PrimitiveArg(text: string)

  /** The exception that escapes the interceptor when an argument cannot be serialised. */
  datatype FormatError = SerializationTypeError

  function Min(a: int, b: int): int {
    if a <= b then a else b
  }

  /** JavaScript's `s.slice(-n)`: the last n elements; since -0 is 0, n == 0 keeps everything. */
  function SliceLast<T>(s: seq<T>, n: nat): (r: seq<T>)
    ensures n == 0 ==> r == s
    ensures n > 0 ==> |r| == Min(n, |s|)
    ensures |r| <= |s| && r == s[|s| - |r|..]
  {
    if n == 0 || |s| <= n then s else s[|s| - n..]
  }

  /** One intercepted call's buffer update: append the entry, keep the newest maxLogs. */
  function AppendBounded(prev: seq<string>, entry: string, maxLogs: nat): (r: seq<string>)
    ensures maxLogs > 0 ==> |r| == Min(maxLogs, |prev| + 1)
    ensures 0 < |r| <= |prev| + 1 && r[|r| - 1] == entry
    ensures maxLogs == 0 ==> r == prev + [entry]
    ensures |prev| < maxLogs ==> r == prev + [entry]
    ensures maxLogs > 0 && |prev| == maxLogs ==> r == prev[1..] + [entry]
  {
    var r := SliceLast(prev + [entry], maxLogs);
    assert |prev| == maxLogs > 0 ==> (prev + [entry])[1..] == prev[1..] + [entry];
    r
  }

  /** Whatever the buffer held before, the update keeps the newest min(maxLogs, |prev| + 1) lines of prev + [entry]. */
  lemma AppendBoundedKeepsNewest(prev: seq<string>, entry: string, maxLogs: nat)
    requires maxLogs > 0
    ensures var all := prev + [entry];
            AppendBounded(prev, entry, maxLogs) == all[|all| - Min(maxLogs, |all|)..]
  {
  }

  /** The buffer after a run of intercepted calls, in call order. */
  function AppendAll(prev: seq<string>, entries: seq<string>, maxLogs: nat): seq<string>
  {
    if entries == [] then prev
    else AppendBounded(AppendAll(prev, entries[..|entries| - 1], maxLogs), entries[|entries| - 1], maxLogs)
  }

  lemma SliceLastOfSliceLast(x: seq<string>, e: string, n: nat)
    requires n > 0
    ensures SliceLast(SliceLast(x, n) + [e], n) == SliceLast(x + [e], n)
  {
    var y := SliceLast(x, n);
    var a, b := SliceLast(y + [e], n), SliceLast(x + [e], n);
    assert |a| == |b|;
    forall i | 0 <= i < |a| ensures a[i] == b[i] {
      if i < |a| - 1 {
        assert a[i] == y[|y| + 1 - |a| + i];
        assert b[i] == x[|x| + 1 - |b| + i];
      }
    }
  }

  /** After any run of calls the buffer holds the newest maxLogs lines of everything logged, oldest first. */
  lemma {:induction false} AppendAllKeepsNewest(prev: seq<string>, entries: seq<string>, maxLogs: nat)
    requires maxLogs > 0 && entries != []
    ensures AppendAll(prev, entries, maxLogs) == SliceLast(prev + entries, maxLogs)
  {
    var init, e := entries[..|entries| - 1], entries[|entries| - 1];
    assert prev + entries == (prev + init) + [e];
    if init == [] {
      assert prev + init == prev;
    } else {
      AppendAllKeepsNewest(prev, init, maxLogs);
      SliceLastOfSliceLast(prev + init, e, maxLogs);
    }
  }

  /** From an empty buffer, k calls leave min(maxLogs, k) lines: the last ones, in call order. */
  lemma {:induction false} FreshBufferHoldsLastCalls(entries: seq<string>, maxLogs: nat)
    requires maxLogs > 0
    ensures var r := AppendAll([], entries, maxLogs);
            |r| == Min(maxLogs, |entries|) && r == entries[|entries| - |r|..]
  {
    if entries != [] {
      AppendAllKeepsNewest([], entries, maxLogs);
      assert [] + entries == entries;
    }
  }

  /** The buffer never grows past maxLogs when it starts within it. */
  lemma {:induction false} AppendAllBounded(prev: seq<string>, entries: seq<string>, maxLogs: nat)
    requires maxLogs > 0 && |prev| <= maxLogs
    ensures |AppendAll(prev, entries, maxLogs)| <= maxLogs
  {
    if entries != [] {
      AppendAllBounded(prev, entries[..|entries| - 1], maxLogs);
    }
  }

  /** The text one argument contributes: serialised objects, stringified primitives; undefined joins as "". */
  function ArgText(a: LogArg): (r: Result<string, FormatError>)
    ensures r.Failure? <==> a == ObjectArg(Unserializable)
  {
    match a
    case PrimitiveArg(t) => Success(t)
    case ObjectArg(Serialized(t)) => Success(t)
    case ObjectArg(Undefined) => Success("")
    case ObjectArg(Unserializable) => Failure(SerializationTypeError)
  }

  /** `args.map(...)`: every argument's text, or the first serialisation error. */
  function ArgTexts(args: seq<LogArg>): (r: Result<seq<string>, FormatError>)
    ensures r.Success? <==> forall i :: 0 <= i < |args| ==> ArgText(args[i]).Success?
    ensures r.Success? ==> |r.value| == |args| &&
                           forall i :: 0 <= i < |args| ==> r.value[i] == ArgText(args[i]).value
  {
    if args == [] then Success([])
    else
      match ArgText(args[0])
      case Failure(e) => Failure(e)
      case Success(t) =>
        match ArgTexts(args[1..])
        case Failure(e) => Failure(e)
        case Success(ts) => Success([t] + ts)
  }

  /** The number of characters in all parts together. */
  function TotalLength(parts: seq<string>): nat
  {
    if parts == [] then 0 else |parts[0]| + TotalLength(parts[1..])
  }

  /** `parts.join(' ')`: the parts in order, exactly one space between neighbours. */
  function Join(parts: seq<string>): (r: string)
    ensures parts == [] ==> r == ""
    ensures parts != [] ==> |r| == TotalLength(parts) + |parts| - 1
    ensures parts != [] ==> parts[0] <= r
  {
    if parts == [] then ""
    else if |parts| == 1 then parts[0]
    else parts[0] + " " + Join(parts[1..])
  }

  /** The message of one intercepted call. */
  function FormatMessage(args: seq<LogArg>): (r: Result<string, FormatError>)
    ensures r.Success? <==> forall i :: 0 <= i < |args| ==> args[i] != ObjectArg(Unserializable)
    ensures r.Success? ==> r.value == Join(ArgTexts(args).value)
  {
    match ArgTexts(args)
    case Failure(e) => Failure(e)
    case Success(ts) => Success(Join(ts))
  }

  /** A call with one primitive argument logs that argument's text as it is. */
  lemma SinglePrimitiveMessage(text: string)
    ensures FormatMessage([PrimitiveArg(text)]) == Success(text)
  {
    var args := [PrimitiveArg(text)];
    assert args[1..] == [] && ArgText(args[0]) == Success(text);
    assert ArgTexts(args[1..]) == Success([]);
    assert [text] + [] == [text];
    assert ArgTexts(args) == Success([text]);
  }

  /** Splitting a line at every space: the inverse of Join for parts without spaces. */
  function Split(s: string): (r: seq<string>)
    ensures |r| >= 1
  {
    if s == [] then [""]
    else
      var rest := Split(s[1..]);
      if s[0] == ' ' then [""] + rest else [[s[0]] + rest[0]] + rest[1..]
  }

  lemma {:induction false} SplitWord(a: string, t: string)
    requires ' ' !in a
    ensures Split(a + t) == [a + Split(t)[0]] + Split(t)[1..]
  {
    if a == [] {
      assert a + t == t;
      assert a + Split(t)[0] == Split(t)[0];
      assert Split(t) == [Split(t)[0]] + Split(t)[1..];
    } else {
      var s := a + t;
      assert a[0] in a;
      assert s[0] == a[0] && s[0] != ' ';
      assert s[1..] == a[1..] + t;
      SplitWord(a[1..], t);
      var rest := Split(s[1..]);
      assert rest[0] == a[1..] + Split(t)[0] && rest[1..] == Split(t)[1..];
      assert Split(s) == [[s[0]] + rest[0]] + rest[1..];
      assert [a[0]] + (a[1..] + Split(t)[0]) == a + Split(t)[0];
    }
  }

  /** Joining texts that contain no space loses nothing: splitting the message gives the texts back. */
  lemma {:induction false} SplitJoin(parts: seq<string>)
    requires parts != []
    requires forall i :: 0 <= i < |parts| ==> ' ' !in parts[i]
    ensures Split(Join(parts)) == parts
  {
    var p := parts[0];
    if |parts| == 1 {
      SplitWord(p, "");
      assert p + "" == p;
    } else {
      var rest := Join(parts[1..]);
      SplitJoin(parts[1..]);
      assert Join(parts) == p + (" " + rest);
      SplitWord(p, " " + rest);
      var spaced := " " + rest;
      assert spaced[0] == ' ' && spaced[1..] == rest;
      assert Split(spaced) == [""] + Split(rest);
      assert Split(spaced)[0] == "" && Split(spaced)[1..] == parts[1..];
      assert p + "" == p;
      assert parts == [p] + parts[1..];
    }
  }

  /** The buffer line for one intercepted call, prefixed by the local time of day. */
  function Entry(level: Level, time: string, message: string): (line: string)
    ensures var prefix := "[" + time + "] ";
            |line| == |prefix| + (if level == Error then 7 else 0) + |message| &&
            prefix <= line && line[|line| - |message|..] == message
  {
    match level
    case Info => "[" + time + "] " + message
    case Error => "[" + time + "] ERROR: " + message
  }

  /** An error line is the info line of the same message with "ERROR: " inserted after the time prefix. */
  lemma ErrorEntryIsMarkedInfoEntry(time: string, message: string)
    ensures var prefix := "[" + time + "] ";
            var info, error := Entry(Info, time, message), Entry(Error, time, message);
            info[..|prefix|] == error[..|prefix|] == prefix &&
            info[|prefix|..] == message && error[|prefix|..] == "ERROR: " + message &&
            info != error
  {
    var prefix := "[" + time + "] ";
    var info, error := Entry(Info, time, message), Entry(Error, time, message);
    assert info == prefix + message;
    assert error == prefix + ("ERROR: " + message);
    assert |info| != |error|;
  }
}
