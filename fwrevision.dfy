/**
  `FwRevision`: a firmware revision number per firmware type, read from
  `FwRevisions/<fwType>`. Its setter passes the firmware type as the group
  and the revision text as both key and value, so it writes
  `<fwType>/<revision>` instead. The model keeps that behaviour and proves
  that a later get of the same firmware type never sees the set.
*/
module FwRevisions {

  import opened Values
  import opened Paths
  import opened CompStore

  /** `FwRevision::settingsPath()`. */
  const SettingsPath := "FwRevisions/"

  /** The key `get(fwType)` reads. */
  function GetKey(fwType: string): string
  {
    JoinPath(SettingsPath, fwType)
  }

  /** The key `set(fwType, rev)` writes: group `fwType`, key the decimal text of `rev`. */
  function SetKey(fwType: string, rev: int): string
  {
    JoinPath(fwType, IntToString(rev))
  }

  /**
    What `get(fwType)` returns: the stored value loaded as a string (empty
    when absent or not convertible), then `toInt()`, which gives 0 for text
    that is empty or not a 32-bit decimal number.
  */
  function RevisionOf(m: Store, fwType: string): (r: int)
    ensures InInt32(r)
    ensures GetKey(fwType) !in m ==> r == 0
    ensures GetKey(fwType) in m && !CanConvert(m[GetKey(fwType)], TStr) ==> r == 0
  {
    ParseInt(LoadValue(m, GetKey(fwType), Str(""), TStr, Str("")).s)
  }

  class FwRevision {
    const settings: SettingsStore

    constructor (settings: SettingsStore)
      ensures this.settings == settings
    {
      this.settings := settings;
    }

    method Get(fwType: string) returns (r: int)
      ensures r == RevisionOf(settings.data, fwType)
    {
      var result := settings.Load(SettingsPath, Str(""), fwType, Str(""), TStr);
      r := ParseInt(result.s);
    }

    method Set(fwType: string, fwRevision: int)
      modifies settings
      ensures settings.data == old(settings.data)[SetKey(fwType, fwRevision) := Str(IntToString(fwRevision))]
    {
      var tempString := IntToString(fwRevision);
      settings.Store(SettingsPath, Str(tempString), tempString, Some(fwType));
    }

    method Remove(tag: string)
      modifies settings
      ensures settings.data == RemoveTree(old(settings.data), GetKey(tag))
      ensures RevisionOf(settings.data, tag) == 0
    {
      settings.Clear(tag, SettingsPath);
      UnderItself(GetKey(tag));
    }
  }

  /** A revision stored as decimal text or as a number reads back as that revision. */
  lemma RevisionReadsStoredNumber(m: Store, fwType: string, rev: int)
    requires InInt32(rev)
    requires GetKey(fwType) in m
    requires m[GetKey(fwType)] == Str(IntToString(rev)) || m[GetKey(fwType)] == Int(rev)
    ensures RevisionOf(m, fwType) == rev
  {
    ParseIntOfIntToString(rev);
  }

  function CountF(s: string): nat
  {
    if s == [] then 0 else CountF(s[..|s| - 1]) + (if s[|s| - 1] == 'F' then 1 else 0)
  }

  lemma {:induction false} CountFAppend(a: string, b: string)
    ensures CountF(a + b) == CountF(a) + CountF(b)
  {
    if b != [] {
      assert (a + b)[..|a + b| - 1] == a + b[..|b| - 1];
      CountFAppend(a, b[..|b| - 1]);
    } else {
      assert a + b == a;
    }
  }

  lemma {:induction false} CountFOfNumber(s: string)
    requires forall i :: 0 <= i < |s| ==> s[i] != 'F'
    ensures CountF(s) == 0
  {
    if s != [] {
      CountFOfNumber(s[..|s| - 1]);
    }
  }

  /**
    The key `set` writes is never the key `get` reads: the read key holds
    one more 'F' than the firmware type, the written key exactly as many.
  */
  lemma SetKeyIsNeverGetKey(fwType: string, rev: int)
    ensures SetKey(fwType, rev) != GetKey(fwType)
  {
    var digits := IntToString(rev);
    CountFOfNumber(digits);
    CountFAppend(SettingsPath, fwType);
    assert SettingsPath == "F" + "wRevisions/";
    CountFAppend("F", "wRevisions/");
    CountFOfNumber("wRevisions/");
    assert CountF("F") == 1;
    if fwType == "" || EndsWithSlash(fwType) {
      CountFAppend(fwType, digits);
    } else {
      CountFAppend(fwType, "/");
      CountFAppend(fwType + "/", digits);
    }
  }

  /** There is no set/get round trip: `set(fwType, rev)` leaves `get(fwType)` as it was. */
  lemma SetIsInvisibleToGet(m: Store, fwType: string, rev: int)
    ensures RevisionOf(m[SetKey(fwType, rev) := Str(IntToString(rev))], fwType) == RevisionOf(m, fwType)
  {
    SetKeyIsNeverGetKey(fwType, rev);
  }

  /**
    The key `set` writes can still be the key `get` reads for another
    firmware type: `set("FwRevisions", rev)` writes `FwRevisions/<rev>`,
    which `get` of the type spelled by the digits of `rev` reads back as `rev`.
  */
  lemma SetReachesAnotherType(m: Store, rev: int)
    requires InInt32(rev)
    ensures SetKey("FwRevisions", rev) == GetKey(IntToString(rev))
    ensures RevisionOf(m[SetKey("FwRevisions", rev) := Str(IntToString(rev))], IntToString(rev)) == rev
  {
    var digits := IntToString(rev);
    assert SetKey("FwRevisions", rev) == "FwRevisions" + "/" + digits;
    assert GetKey(digits) == SettingsPath + digits;
    assert "FwRevisions" + "/" + digits == SettingsPath + digits;
    RevisionReadsStoredNumber(m[SetKey("FwRevisions", rev) := Str(digits)], digits, rev);
  }
}
