/**
  The release helper's version bump (setup.py, `IncrementVersionCommand.run`):
  the patch number of a `major.minor.patch` version goes up by one and every
  occurrence of the old version in the version file is replaced by the new.
 */
module VersionBump {

  import opened Wrappers
  import opened Text

  datatype BumpError =
    | /** The version does not split into exactly three parts on `.` (the unpacking fails). */
      NotThreeParts
    | /** The patch part is not an integer (`int()` fails). */
      PatchNotANumber

  /** `major, minor, patch = v.split('.')`, then `'.'.join([major, minor, str(int(patch) + 1)])`. */
  function IncrementVersion(v: string): (r: Result<string, BumpError>)
    ensures r == Err(NotThreeParts) <==> |Split(v, '.')| != 3
    ensures r == Err(PatchNotANumber) <==> |Split(v, '.')| == 3 && ParseInt(Split(v, '.')[2]).None?
  {
    var parts := Split(v, '.');
    if |parts| != 3 then Err(NotThreeParts)
    else
      match ParseInt(parts[2])
      case None => Err(PatchNotANumber)
      case Some(p) => Ok(Join([parts[0], parts[1], IntToString(p + 1)], '.'))
  }

  /** `str(n)` never holds a dot. */
  lemma IntToStringHasNoDot(n: int)
    ensures Free(IntToString(n), '.')
  {
    var d := NatToString(if n < 0 then -n else n);
    assert forall i :: 0 <= i < |d| ==> IsDigit(d[i]);
  }

  /**
    Reading the new version back gives the same major and minor and a patch
    exactly one larger.
   */
  lemma IncrementedVersionParses(v: string)
    requires IncrementVersion(v).Ok?
    ensures var parts := Split(v, '.');
            var parts' := Split(IncrementVersion(v).value, '.');
            |parts'| == 3 && parts'[0] == parts[0] && parts'[1] == parts[1] &&
            ParseInt(parts'[2]) == Some(ParseInt(parts[2]).value + 1)
  {
    var parts := Split(v, '.');
    var p := ParseInt(parts[2]).value;
    SplitPartsFree(v, '.');
    IntToStringHasNoDot(p + 1);
    SplitJoin([parts[0], parts[1], IntToString(p + 1)], '.');
    IntToStringRoundTrip(p + 1);
  }

  lemma JoinThree(a: string, b: string, c: string, sep: char)
    ensures Join([a, b, c], sep) == a + [sep] + b + [sep] + c
  {
    assert [a, b, c][1..] == [b, c];
    assert [b, c][1..] == [c];
    assert Join([b, c], sep) == b + [sep] + c;
    assert Join([a, b, c], sep) == a + [sep] + (b + [sep] + c);
  }

  /** A string that splits into three parts is not empty. */
  lemma ThreePartsNotEmpty(s: string, sep: char)
    requires |Split(s, sep)| == 3
    ensures s != []
  {
  }

  /** Leading zeros of the patch are not kept: `007` becomes `8`. */
  lemma LeadingZerosDropped(major: string, minor: string)
    requires Free(major, '.') && Free(minor, '.')
    ensures IncrementVersion(major + "." + minor + ".007") == Ok(major + "." + minor + ".8")
  {
    var parts := [major, minor, "007"];
    assert Free("007", '.');
    SplitJoin(parts, '.');
    JoinThree(major, minor, "007", '.');
    assert major + ['.'] + minor + ['.'] + "007" == major + "." + minor + ".007";
    assert AllDigits("007");
    assert DigitsValue("007") == 7 by {
      assert "007"[..2] == "00" && "00"[..1] == "0" && "0"[..0] == "";
    }
    assert ParseInt("007") == Some(7);
    assert IntToString(8) == "8";
    JoinThree(major, minor, "8", '.');
    assert major + ['.'] + minor + ['.'] + "8" == major + "." + minor + ".8";
  }

  /**
    `run` after the file is read: the new version, and the file content with
    every occurrence of the old version replaced.
   */
  function BumpVersion(content: string, originalVersion: string): (r: Result<(string, string), BumpError>)
    ensures IncrementVersion(originalVersion).Err? <==> r.Err?
    ensures r.Ok? ==> r.value.0 == IncrementVersion(originalVersion).value
  {
    match IncrementVersion(originalVersion)
    case Err(e) => Err(e)
    case Ok(version) =>
      ThreePartsNotEmpty(originalVersion, '.');
      Ok((version, ReplaceAll(content, originalVersion, version)))
  }

  /**
    The version assignment line is rewritten: when the old version occurs
    neither in the text before it nor across the start of it, nor in the text
    after it, the old version becomes the new one and the text around it is
    kept.
   */
  lemma VersionLineRewritten(before: string, v: string, after: string)
    requires IncrementVersion(v).Ok?
    requires v != [] && !Contains(before + v[..|v| - 1], v)
    requires !Contains(after, v)
    ensures BumpVersion(before + v + after, v) == Ok((IncrementVersion(v).value, before + IncrementVersion(v).value + after))
  {
    var w := IncrementVersion(v).value;
    assert before + v + after == before + (v + after);
    forall i | 0 <= i < |before|
      ensures !StartsWith((before + (v + after))[i..], v)
    {
      NoMatchBeforeFront(before, v, after, i);
    }
    ReplaceSkipsUnmatched(before, v + after, v, w);
    ReplaceAtFront(v, after, w);
    ReplaceAbsent(after, v, w);
    assert ReplaceAll(before + v + after, v, w) == before + (w + after);
    assert before + (w + after) == before + w + after;
    assert BumpVersion(before + v + after, v) == Ok((w, ReplaceAll(before + v + after, v, w)));
  }
}
