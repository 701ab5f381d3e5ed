/** `get_size` and `buildPreviewText` of metadata_extractor.py: the human-readable file size and
    the plain-text summary of an image's metadata. */
module FileInfo {
  import opened Wrappers
  import opened Text
  import opened Values

  const KiB: nat := 1024
  const MiB: nat := 1024 * 1024

  /** `num * 100 / den` rounded to the nearest integer, ties to even, as `format(x, ".2f")` rounds
      the exactly representable quotient `num / den` to hundredths. */
  function Hundredths(num: nat, den: nat): (c: nat)
    requires den > 0
    ensures 2 * (c * den) <= 2 * (num * 100) + den
    ensures 2 * (num * 100) <= 2 * (c * den) + den
    ensures 2 * (c * den) == 2 * (num * 100) + den ==> c % 2 == 0
    ensures 2 * (num * 100) == 2 * (c * den) + den ==> c % 2 == 0
  {
    var scaled: nat := num * 100;
    var q: nat := NatDiv(scaled, den);
    var rem: nat := scaled % den;
    assert scaled == q * den + rem;
    if 2 * rem > den || (2 * rem == den && q % 2 == 1) then q + 1 else q
  }

  /** A count of hundredths written with two decimals: 1234 is "12.34". */
  function Fixed2(c: nat): string {
    NatToString(c / 100) + "." + PadDigits(c % 100, 2)
  }

  /** `get_size(path)` for a file of `n` bytes. */
  function GetSize(n: nat): (r: string)
    ensures EndsWith(r, " bytes") <==> n < KiB
    ensures EndsWith(r, " KB") <==> KiB <= n < MiB
    ensures EndsWith(r, " MB") <==> MiB <= n
  {
    if n < KiB then UnitSuffix(NatToString(n), " bytes"); NatToString(n) + " bytes"
    else if n < MiB then UnitSuffix(Fixed2(Hundredths(n, KiB)), " KB"); Fixed2(Hundredths(n, KiB)) + " KB"
    else UnitSuffix(Fixed2(Hundredths(n, MiB)), " MB"); Fixed2(Hundredths(n, MiB)) + " MB"
  }

  /** A figure followed by a unit ends with that unit and with none of the others. */
  lemma UnitSuffix(figure: string, unit: string)
    requires unit in [" bytes", " KB", " MB"]
    ensures EndsWith(figure + unit, unit)
    ensures forall other :: other in [" bytes", " KB", " MB"] && other != unit ==> !EndsWith(figure + unit, other)
  {
    var s := figure + unit;
    assert s[|s| - |unit|..] == unit;
    assert s[|s| - 1] == unit[|unit| - 1];
  }

  /** A size of one and a half kilobytes, as the gallery shows it. */
  lemma GetSizeKilobyteExample()
    ensures GetSize(1536) == "1.50 KB"
  {
    assert Hundredths(1536, KiB) == 150;
    assert NatToString(1) == "1";
    assert NatToString(50) == "50" by { assert NatToString(5) == "5"; }
    assert PadDigits(50, 2) == "50";
    assert Fixed2(150) == "1.50";
  }

  /** One byte short of a megabyte is still shown in kilobytes, rounded up to 1024.00. */
  lemma GetSizeLargestKilobytes()
    ensures GetSize(MiB - 1) == "1024.00 KB"
  {
    assert Hundredths(MiB - 1, KiB) == 102400;
    assert NatToString(1024) == "1024" by {
      assert NatToString(1) == "1";
      assert NatToString(10) == "10";
      assert NatToString(102) == "102";
    }
    assert NatToString(0) == "0";
    assert PadDigits(0, 2) == "00";
    assert Fixed2(102400) == "1024.00";
  }

  /** The shown kilobyte figure lies between 1.00 and 1024.00: a file one byte short of a megabyte
      is shown as "1024.00 KB". */
  lemma KilobyteRange(n: nat)
    requires KiB <= n < MiB
    ensures 100 <= Hundredths(n, KiB) <= 102400
  {
    var c := Hundredths(n, KiB);
    assert 2 * (c * 1024) <= 2 * (n * 100) + 1024;
    assert 2 * (n * 100) <= 2 * (c * 1024) + 1024;
  }

  /** The shown megabyte figure is at least 1.00. */
  lemma MegabyteAtLeastOne(n: nat)
    requires MiB <= n
    ensures 100 <= Hundredths(n, MiB)
  {
    var c := Hundredths(n, MiB);
    assert 2 * (n * 100) <= 2 * (c * MiB) + MiB;
  }

  /** Hundredths never go down as the size grows. */
  lemma {:induction false} HundredthsMonotone(a: nat, b: nat, den: nat)
    requires den > 0 && a <= b
    ensures Hundredths(a, den) <= Hundredths(b, den)
  {
    var ca := Hundredths(a, den);
    var cb := Hundredths(b, den);
    assert 2 * (ca * den) <= 2 * (cb * den) + 2 * den;
    Distrib(cb, den);
    MulCancel(ca, cb + 1, den);
    if ca == cb + 1 {
      assert false;
    }
  }

  lemma Distrib(x: nat, k: nat)
    ensures (x + 1) * k == x * k + k
  {
  }

  lemma MulCancel(x: nat, y: nat, k: nat)
    requires k > 0 && x * k <= y * k
    ensures x <= y
  {
    if x > y {
      MulMonotone(y + 1, x, k);
      assert false;
    }
  }

  lemma MulMonotone(x: nat, y: nat, k: nat)
    requires x <= y
    ensures x * k <= y * k
  {
  }

  // ---------------------------------------------------------------- preview text

  /** `v[:100]`: strings and lists slice; numbers, dicts and the rest raise TypeError. */
  function Slice100(v: Value): (r: Outcome<Value>)
    ensures r.Ok? <==> v.Str? || v.Arr?
    ensures v.Str? ==> r == Ok(Str(Take(v.s, 100)))
    ensures v.Arr? ==> r == Ok(Arr(Take(v.items, 100)))
  {
    match v
    case Str(t) => Ok(Str(Take(t, 100)))
    case Arr(xs) => Ok(Arr(Take(xs, 100)))
    case _ => Err(TypeError)
  }

  /** `metadata['fileinfo'][field]`. */
  function FileField(metadata: Value, field: string): Outcome<string> {
    match PySubscript(metadata, "fileinfo")
    case Err(e) => Err(e)
    case Ok(info) =>
      match PySubscript(info, field)
      case Err(e) => Err(e)
      case Ok(v) => Ok(PyStr(v))
  }

  /** The line added for one prompt slot: nothing when the slot is empty. */
  function PromptLine(polarity: string, prompts: Value, key: string): Outcome<string> {
    match PyDictGet(prompts, key, Null)
    case Err(e) => Err(e)
    case Ok(v) =>
      if !PyTruthy(v) then Ok("")
      else
        match PySubscript(prompts, key)
        case Err(e) => Err(e)
        case Ok(full) =>
          match Slice100(full)
          case Err(e) => Err(e)
          case Ok(excerpt) => Ok(polarity + " Prompt: " + PyStr(excerpt) + "...\n")
  }

  /** The four file lines, then a line per non-empty prompt when structured prompts are present. */
  function PreviewSpec(metadata: Value): Outcome<string> {
    match FileField(metadata, "filename")
    case Err(e) => Err(e)
    case Ok(name) =>
      match FileField(metadata, "resolution")
      case Err(e) => Err(e)
      case Ok(resolution) =>
        match FileField(metadata, "date")
        case Err(e) => Err(e)
        case Ok(date) =>
          match FileField(metadata, "size")
          case Err(e) => Err(e)
          case Ok(size) =>
            var header := "File: " + name + "\n" + "Resolution: " + resolution + "\n"
                          + "Date: " + date + "\n" + "Size: " + size + "\n";
            if !HasKey(metadata.fields, "structured_prompts") then Ok(header)
            else
              var prompts := Lookup(metadata.fields, "structured_prompts").value;
              match PromptLine("Positive", prompts, "positive")
              case Err(e) => Err(e)
              case Ok(positive) =>
                match PromptLine("Negative", prompts, "negative")
                case Err(e) => Err(e)
                case Ok(negative) => Ok(header + positive + negative)
  }

  /** `buildPreviewText(metadata)`. */
  method BuildPreviewText(metadata: Value) returns (r: Outcome<string>)
    ensures r == PreviewSpec(metadata)
  {
    var name := FileField(metadata, "filename");
    if name.Err? {
      return Err(name.error);
    }
    var text := "File: " + name.value + "\n";
    var resolution := FileField(metadata, "resolution");
    if resolution.Err? {
      return Err(resolution.error);
    }
    text := text + "Resolution: " + resolution.value + "\n";
    var date := FileField(metadata, "date");
    if date.Err? {
      return Err(date.error);
    }
    text := text + "Date: " + date.value + "\n";
    var size := FileField(metadata, "size");
    if size.Err? {
      return Err(size.error);
    }
    text := text + "Size: " + size.value + "\n";
    var hasPrompts := PyIn("structured_prompts", metadata);
    if hasPrompts.Ok? && hasPrompts.value {
      var prompts := Lookup(metadata.fields, "structured_prompts").value;
      var positive := PromptLine("Positive", prompts, "positive");
      if positive.Err? {
        return Err(positive.error);
      }
      text := text + positive.value;
      var negative := PromptLine("Negative", prompts, "negative");
      if negative.Err? {
        return Err(negative.error);
      }
      text := text + negative.value;
    }
    return Ok(text);
  }

  /** A string prompt is shown by its first 100 characters followed by "..."; an empty or
      missing one adds no line. */
  lemma PromptLineExcerpt(prompts: seq<(string, Value)>, key: string, polarity: string)
    ensures Lookup(prompts, key).Some? && Lookup(prompts, key).value.Str? && Lookup(prompts, key).value.s != "" ==>
            var p := Lookup(prompts, key).value.s;
            var line := PromptLine(polarity, Obj(prompts), key);
            line.Ok? && line.value == polarity + " Prompt: " + Take(p, 100) + "...\n"
            && |Take(p, 100)| <= 100 && StartsWith(p, Take(p, 100))
    ensures Lookup(prompts, key).None? || !PyTruthy(Lookup(prompts, key).value) ==>
            PromptLine(polarity, Obj(prompts), key) == Ok("")
  {
  }

  /** The preview fails as the source does: TypeError for a non-dict, KeyError for missing file
      information; it succeeds only on a dict that has it. */
  lemma PreviewErrors(metadata: Value)
    ensures !metadata.Obj? ==> PreviewSpec(metadata) == Err(TypeError)
    ensures metadata.Obj? && !HasKey(metadata.fields, "fileinfo") ==> PreviewSpec(metadata) == Err(KeyError)
    ensures PreviewSpec(metadata).Ok? ==> metadata.Obj? && HasKey(metadata.fields, "fileinfo")
  {
  }

  /** Without structured prompts the preview is exactly the four file lines. */
  lemma PreviewWithoutPrompts(metadata: Value)
    requires metadata.Obj? && !HasKey(metadata.fields, "structured_prompts")
    requires PreviewSpec(metadata).Ok?
    ensures PreviewSpec(metadata).value ==
            "File: " + FileField(metadata, "filename").value + "\n"
            + "Resolution: " + FileField(metadata, "resolution").value + "\n"
            + "Date: " + FileField(metadata, "date").value + "\n"
            + "Size: " + FileField(metadata, "size").value + "\n"
  {
  }
}
