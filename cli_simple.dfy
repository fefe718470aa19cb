/**
 * The `--sensors 1:EMG,2:RSP` option of src/mobi_physio_api/cli_simple.py:
 * each comma-separated piece is stripped, split at `:` into exactly two
 * parts, the port read with `int()` and the type upper-cased.  A
 * `ValueError` anywhere makes `main` return 1.
 */
module CliSimple {
  import opened Wrappers
  import opened Text
  import opened PyDict

  /** The `ValueError` of unpacking a split into two names. */
  function UnpackError(count: nat): PyError {
    if count < 2 then ValueError("not enough values to unpack (expected 2, got " + IntToString(count) + ")")
    else ValueError("too many values to unpack (expected 2)")
  }

  /** The `ValueError` of `int()` on a string that is not an integer. */
  function IntError(s: string): PyError {
    ValueError("invalid literal for int() with base 10: '" + s + "'")
  }

  /** One `port:type` piece: `port_str, sensor_type = piece.strip().split(":")`, then `int(port_str)`. */
  function ParsePiece(piece: string): (r: Result<(int, string)>)
    ensures r.Err? ==> r.error.ValueError?
    ensures r.Ok? ==> ':' !in r.value.1 && forall k :: 0 <= k < |r.value.1| ==> !('a' <= r.value.1[k] <= 'z')
  {
    var parts := Split(Strip(piece), ':');
    if |parts| != 2 then Err(UnpackError(|parts|))
    else match PyInt(parts[0])
      case None => Err(IntError(parts[0]))
      case Some(port) => Ok((port, ToUpper(parts[1])))
  }

  /** One turn of the loop: keep an earlier error, else assign the parsed entry. */
  function Step(acc: Result<Dict<int, string>>, entry: Result<(int, string)>): Result<Dict<int, string>> {
    if acc.Err? then acc
    else if entry.Err? then Err(entry.error)
    else Ok(Set(acc.value, entry.value.0, entry.value.1))
  }

  /** The mapping built from the parsed pieces seen so far, or the first error. */
  function Collect(entries: seq<Result<(int, string)>>): Result<Dict<int, string>>
    decreases |entries|
  {
    if entries == [] then Ok([]) else Step(Collect(entries[..|entries| - 1]), entries[|entries| - 1])
  }

  /** Every piece parsed on its own. */
  function Entries(pieces: seq<string>): (r: seq<Result<(int, string)>>)
    ensures |r| == |pieces| && forall i :: 0 <= i < |pieces| ==> r[i] == ParsePiece(pieces[i])
  {
    seq(|pieces|, i requires 0 <= i < |pieces| => ParsePiece(pieces[i]))
  }

  /** The whole option: absent or empty gives an empty mapping. */
  function SensorMapSpec(arg: Option<string>): Result<Dict<int, string>> {
    if arg.None? || arg.value == "" then Ok([]) else Collect(Entries(Split(arg.value, ',')))
  }

  /** The parsing loop of `main`, leaving at the first `ValueError`. */
  method ParseSensorMap(arg: Option<string>) returns (r: Result<Dict<int, string>>)
    ensures r == SensorMapSpec(arg)
  {
    var sensorMap: Dict<int, string> := [];
    if arg.None? || arg.value == "" {
      return Ok(sensorMap);
    }
    var pieces := Split(arg.value, ',');
    ghost var entries := Entries(pieces);
    var i := 0;
    while i < |pieces|
      invariant 0 <= i <= |pieces|
      invariant Collect(entries[..i]) == Ok(sensorMap)
    {
      var entry := ParsePiece(pieces[i]);
      CollectStep(entries, i);
      if entry.Err? {
        ErrorSticks(entries, i + 1);
        return Err(entry.error);
      }
      sensorMap := Set(sensorMap, entry.value.0, entry.value.1);
      i := i + 1;
    }
    assert entries[..i] == entries;
    return Ok(sensorMap);
  }

  /** One more piece: the fold so far, stepped with that piece's entry. */
  lemma CollectStep(entries: seq<Result<(int, string)>>, i: int)
    requires 0 <= i < |entries|
    ensures Collect(entries[..i + 1]) == Step(Collect(entries[..i]), entries[i])
  {
    assert entries[..i + 1][..i] == entries[..i];
  }

  /** Once a piece fails, later pieces do not matter. */
  lemma {:induction false} ErrorSticks(entries: seq<Result<(int, string)>>, k: int)
    requires 0 <= k <= |entries| && Collect(entries[..k]).Err?
    ensures Collect(entries) == Collect(entries[..k])
    decreases |entries|
  {
    if k < |entries| {
      var n := |entries| - 1;
      assert entries[..n][..k] == entries[..k];
      ErrorSticks(entries[..n], k);
    } else {
      assert entries[..k] == entries;
    }
  }

  /** The pieces parse exactly when each of them does. */
  lemma {:induction false} CollectOk(entries: seq<Result<(int, string)>>)
    ensures Collect(entries).Ok? <==> forall i :: 0 <= i < |entries| ==> entries[i].Ok?
    decreases |entries|
  {
    if entries != [] {
      var n := |entries| - 1;
      CollectOk(entries[..n]);
      assert forall i :: 0 <= i < n ==> entries[..n][i] == entries[i];
    }
  }

  /** A later piece naming a port overwrites what earlier pieces gave it. */
  lemma {:induction false} LastEntryWins(entries: seq<Result<(int, string)>>, port: int, t: string)
    requires Collect(entries).Ok?
    ensures Collect(entries + [Ok((port, t))]).Ok?
    ensures Get(Collect(entries + [Ok((port, t))]).value, port) == Some(t)
  {
    assert (entries + [Ok((port, t))])[..|entries|] == entries;
    GetSet(Collect(entries).value, port, t, port);
  }

  /** An absent or empty option gives the empty mapping. */
  lemma NoOptionNoMapping(arg: Option<string>)
    requires arg.None? || arg == Some("")
    ensures SensorMapSpec(arg) == Ok([])
  {
  }

  /** A piece without exactly one colon, the empty piece of a trailing comma included, is refused. */
  lemma {:induction false} ColonCountRefused(piece: string)
    requires Count(Strip(piece), ':') != 1
    ensures ParsePiece(piece).Err?
  {
    SplitLength(Strip(piece), ':');
  }

  /** `n:t` with no colon in `t` and no space at its end parses to port `n`, type `t` upper-cased. */
  lemma {:induction false} PieceRoundTrip(port: int, t: string)
    requires ':' !in t
    requires t == [] || !IsSpace(t[|t| - 1])
    ensures ParsePiece(IntToString(port) + ":" + t) == Ok((port, ToUpper(t)))
  {
    var p := IntToString(port);
    var piece := p + ":" + t;
    PieceStripped(port, t);
    PieceSplit(port, t);
    PyIntOfIntToString(port);
    var parts := Split(Strip(piece), ':');
    assert parts == [p, t];
  }

  /** `str(n) + ":" + t` has nothing to strip when `t` does not end in a space. */
  lemma PieceStripped(port: int, t: string)
    requires t == [] || !IsSpace(t[|t| - 1])
    ensures Strip(IntToString(port) + ":" + t) == IntToString(port) + ":" + t
  {
    var p := IntToString(port);
    var piece := p + ":" + t;
    SignOfIntToString(port);
    assert piece[0] == p[0] && !IsSpace(p[0]);
    assert piece[|piece| - 1] == if t == [] then ':' else t[|t| - 1];
    StripUnchanged(piece);
  }

  /** `str(n) + ":" + t` splits at its only colon. */
  lemma PieceSplit(port: int, t: string)
    requires ':' !in t
    ensures Split(IntToString(port) + ":" + t, ':') == [IntToString(port), t]
  {
    var p := IntToString(port);
    assert ':' !in p;
    assert p + ":" + t == p + [':'] + t;
    SplitAtFirst(p, t, ':');
    SplitNoSep(t, ':');
  }

  /** Only the whole piece is stripped: `1: EMG` keeps the space before the type. */
  lemma InnerSpaceKept()
    ensures ParsePiece("1: emg") == Ok((1, " EMG"))
  {
    assert "1: emg" == IntToString(1) + ":" + " emg" by {
      assert IntToString(1) == "1";
    }
    assert ToUpper(" emg") == " EMG";
    PieceRoundTrip(1, " emg");
  }
}
