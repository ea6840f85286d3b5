/** The sound assets each loader requests, in order, and the effect of an
    IOException from the asset store on that sequence of requests. */
module Assets {

  /** Number of regular sounds: fart01 .. fart15. */
  const RegularCount: nat := 15

  /** File extensions: SoundController loads WAV files, the other two OGG files. */
  const Wav: string := "wav"
  const Ogg: string := "ogg"

  /** The decimal digit for d. */
  function Digit(d: nat): (c: char)
    requires d < 10
    ensures '0' <= c <= '9' && c as int - '0' as int == d
  {
    ('0' as int + d) as char
  }

  /** `%02d`: i written with two decimal digits, zero-padded. */
  function TwoDigits(i: nat): (s: string)
    requires i < 100
    ensures |s| == 2
  {
    [Digit(i / 10), Digit(i % 10)]
  }

  /** The two digits of `TwoDigits(i)` read back, in base ten, as i. */
  lemma TwoDigitsDecimal(i: nat)
    requires i < 100
    ensures '0' <= TwoDigits(i)[0] <= '9' && '0' <= TwoDigits(i)[1] <= '9'
    ensures (TwoDigits(i)[0] as int - '0' as int) * 10 + (TwoDigits(i)[1] as int - '0' as int) == i
  {
  }

  /** `String.format(Locale.US, "fart%02d.<ext>", i)`. */
  function RegularAssetName(i: nat, ext: string): (name: string)
    requires i < 100
    ensures |name| == 7 + |ext| && name[..4] == "fart" && name[6] == '.' && name[7..] == ext
    ensures name[4..6] == TwoDigits(i)
  {
    "fart" + TwoDigits(i) + "." + ext
  }

  /** The name of the single long sample. */
  function BigAssetName(ext: string): (name: string)
    ensures |name| == 9 + |ext| && name[4] == '_'
  {
    assert ("fart_big." + ext)[4] == "fart_big."[4];
    "fart_big." + ext
  }

  /** The regular assets in loop order, i = 1 .. RegularCount. */
  function RegularNames(ext: string): (names: seq<string>)
    ensures |names| == RegularCount
    ensures forall j :: 0 <= j < RegularCount ==> names[j] == RegularAssetName(j + 1, ext)
  {
    seq(RegularCount, j requires 0 <= j < RegularCount => RegularAssetName(j + 1, ext))
  }

  /** Every request SoundController and SoundControlFragment make: the regular
      assets, then the long sample. */
  function LoadOrder(ext: string): (names: seq<string>)
    ensures |names| == RegularCount + 1
    ensures forall j :: 0 <= j < RegularCount ==> names[j] == RegularAssetName(j + 1, ext)
    ensures names[RegularCount] == BigAssetName(ext)
  {
    RegularNames(ext) + [BigAssetName(ext)]
  }

  /** The requests made before the first asset that cannot be opened: the
      IOException leaves the try block, so no later asset is requested. */
  function OpenedPrefix<T(==)>(names: seq<T>, missing: set<T>): (r: seq<T>)
    ensures r <= names
    ensures forall n :: n in r ==> n !in missing
    ensures |r| < |names| ==> names[|r|] in missing
  {
    if names == [] || names[0] in missing then []
    else [names[0]] + OpenedPrefix(names[1..], missing)
  }

  /** When the first j names can be opened, the requests are those j names
      followed by the requests the rest of the names give. */
  lemma {:induction false} OpenedPrefixSplit<T>(names: seq<T>, missing: set<T>, j: nat)
    requires j <= |names|
    requires forall k :: 0 <= k < j ==> names[k] !in missing
    ensures OpenedPrefix(names, missing) == names[..j] + OpenedPrefix(names[j..], missing)
    decreases j
  {
    if j == 0 {
      assert names[..0] == [] && names[0..] == names;
    } else {
      var tail := names[1..];
      var rest := OpenedPrefix(names[j..], missing);
      assert names[0] !in missing;
      calc {
        OpenedPrefix(names, missing);
      ==
        [names[0]] + OpenedPrefix(tail, missing);
      == { OpenedPrefixSplit(tail, missing, j - 1); SliceShift(names, j); }
        [names[0]] + (tail[..j - 1] + rest);
      == { ConsAssoc(names[0], tail[..j - 1], rest); }
        ([names[0]] + tail[..j - 1]) + rest;
      == { SliceShift(names, j); }
        names[..j] + rest;
      }
    }
  }

  /** Dropping the first element shifts the slices by one. */
  lemma SliceShift<T>(names: seq<T>, j: nat)
    requires 0 < j <= |names|
    ensures names[1..][j - 1..] == names[j..]
    ensures names[..j] == [names[0]] + names[1..][..j - 1]
  {
  }

  /** Prepending one element commutes with concatenation. */
  lemma ConsAssoc<T>(x: T, a: seq<T>, b: seq<T>)
    ensures [x] + (a + b) == ([x] + a) + b
  {
  }

  /** The first i + 1 names are the first i names and the next one. */
  lemma TakeOneMore<T>(names: seq<T>, i: nat)
    requires i < |names|
    ensures names[..i + 1] == names[..i] + [names[i]]
  {
  }

  /** When the names in `done`, a prefix of the names, could all be opened and
      the next one cannot, the requests are exactly `done`. */
  lemma OpenedPrefixStops<T>(names: seq<T>, missing: set<T>, done: seq<T>)
    requires |done| < |names| && done == names[..|done|]
    requires forall k :: 0 <= k < |done| ==> done[k] !in missing
    requires names[|done|] in missing
    ensures OpenedPrefix(names, missing) == done
  {
    var j := |done|;
    OpenedPrefixSplit(names, missing, j);
    assert names[j..][0] == names[j];
    assert names[..j] + [] == names[..j];
  }

  /** When every name could be opened, every name is requested. */
  lemma OpenedPrefixAll<T>(names: seq<T>, missing: set<T>)
    requires forall k :: 0 <= k < |names| ==> names[k] !in missing
    ensures OpenedPrefix(names, missing) == names
  {
    OpenedPrefixSplit(names, missing, |names|);
    assert names[..|names|] + [] == names;
  }

  /** `%02d` gives distinct names for distinct numbers. */
  lemma RegularAssetNameInjective(i: nat, j: nat, ext: string)
    requires i < 100 && j < 100
    requires RegularAssetName(i, ext) == RegularAssetName(j, ext)
    ensures i == j
  {
    var a, b := RegularAssetName(i, ext), RegularAssetName(j, ext);
    assert a[4] == Digit(i / 10) && a[5] == Digit(i % 10);
    assert b[4] == Digit(j / 10) && b[5] == Digit(j % 10);
  }

  /** No request is made twice, and the long sample is never mistaken for a
      regular one. */
  lemma LoadOrderDistinct(ext: string, a: nat, b: nat)
    requires a < b < |LoadOrder(ext)|
    ensures LoadOrder(ext)[a] != LoadOrder(ext)[b]
  {
    if b < RegularCount {
      assert LoadOrder(ext)[a][4..6] == TwoDigits(a + 1) && LoadOrder(ext)[b][4..6] == TwoDigits(b + 1);
      TwoDigitsDecimal(a + 1);
      TwoDigitsDecimal(b + 1);
    } else {
      assert LoadOrder(ext)[a][4] == Digit((a + 1) / 10);
    }
  }

  /** The numbers `%02d` writes for the fifteen regular assets. */
  const RegularNumbers: seq<string> := ["01", "02", "03", "04", "05", "06", "07", "08", "09", "10", "11", "12", "13", "14", "15"]

  /** The fifteen regular names written out: fart01 to fart15, in loop order. */
  lemma RegularNamesListed(ext: string)
    ensures |RegularNumbers| == RegularCount
    ensures forall j :: 0 <= j < RegularCount ==> RegularNames(ext)[j] == "fart" + RegularNumbers[j] + "." + ext
  {
    RegularNumbersFormatted();
  }

  /** Each entry of `RegularNumbers` is what `%02d` writes for its number. */
  lemma RegularNumbersFormatted()
    ensures forall j :: 0 <= j < RegularCount ==> TwoDigits(j + 1) == RegularNumbers[j]
  {
    forall j | 0 <= j < RegularCount
      ensures TwoDigits(j + 1) == RegularNumbers[j]
    {
      if j == 0 { assert TwoDigits(1) == RegularNumbers[0]; }
      else if j == 1 { assert TwoDigits(2) == RegularNumbers[1]; }
      else if j == 2 { assert TwoDigits(3) == RegularNumbers[2]; }
      else if j == 3 { assert TwoDigits(4) == RegularNumbers[3]; }
      else if j == 4 { assert TwoDigits(5) == RegularNumbers[4]; }
      else if j == 5 { assert TwoDigits(6) == RegularNumbers[5]; }
      else if j == 6 { assert TwoDigits(7) == RegularNumbers[6]; }
      else if j == 7 { assert TwoDigits(8) == RegularNumbers[7]; }
      else if j == 8 { assert TwoDigits(9) == RegularNumbers[8]; }
      else if j == 9 { assert TwoDigits(10) == RegularNumbers[9]; }
      else if j == 10 { assert TwoDigits(11) == RegularNumbers[10]; }
      else if j == 11 { assert TwoDigits(12) == RegularNumbers[11]; }
      else if j == 12 { assert TwoDigits(13) == RegularNumbers[12]; }
      else if j == 13 { assert TwoDigits(14) == RegularNumbers[13]; }
      else { assert TwoDigits(15) == RegularNumbers[14]; }
    }
  }
}
