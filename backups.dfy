/** What the page derives from a backup's file name: the colour class of its dropdown entry
    (`getClassForBackup`) and the size-and-date suffix shown beside it (`getBackupDescriptionString`). */
module Backups {
  import opened Wrappers
  import opened Text

  /** One entry of the backend's backup inventory. */
  datatype Backup = Backup(name: string, sizeString: string)

  /** The four keys of `backupTypeToClassColor`. */
  datatype BackupType = Scheduled | Manual | OnStop | OnForcedStop

  function Tag(t: BackupType): string {
    match t
    case Scheduled => "SCHEDULED"
    case Manual => "MANUAL"
    case OnStop => "ON_STOP"
    case OnForcedStop => "ON_FORCED_STOP"
  }

  function ClassOf(t: BackupType): string {
    match t
    case Scheduled => "text-secondary"
    case Manual => "text-info"
    case OnStop => "text-primary"
    case OnForcedStop => "text-danger"
  }

  /** No class is empty and each class names exactly one type, so the mapping can be read backwards. */
  lemma ClassesDistinct()
    ensures forall t :: ClassOf(t) != ""
    ensures forall t, u :: ClassOf(t) == ClassOf(u) ==> t == u
  {
    forall t, u | ClassOf(t) == ClassOf(u) ensures t == u {
      assert |ClassOf(Scheduled)| == 14 && |ClassOf(Manual)| == 9;
      assert |ClassOf(OnStop)| == 12 && |ClassOf(OnForcedStop)| == 11;
    }
  }

  /** Looking a stripped name up in the table: the lookup is exact, so case matters. */
  function TypeOfTag(s: string): (r: Option<BackupType>)
    ensures r.Some? ==> Tag(r.value) == s
    ensures r.None? ==> forall t :: Tag(t) != s
  {
    if s == "SCHEDULED" then Some(Scheduled)
    else if s == "MANUAL" then Some(Manual)
    else if s == "ON_STOP" then Some(OnStop)
    else if s == "ON_FORCED_STOP" then Some(OnForcedStop)
    else None
  }

  function LowerChar(c: char): char {
    if 'A' <= c <= 'Z' then (c as int + 32) as char else c
  }

  /** `s` begins with `.zip` in any mix of cases (the regular expression carries the `i` flag). */
  predicate StartsWithZip(s: string) {
    |s| >= 4 && s[0] == '.' && LowerChar(s[1]) == 'z' && LowerChar(s[2]) == 'i' && LowerChar(s[3]) == 'p'
  }

  /** The global replacement of `(\d+_)|(\.zip)` by the empty string, scanning left to right:
      at each position a run of digits followed by `_`, or a `.zip`, is dropped and the scan
      resumes after it; otherwise one character is kept. */
  function StripTypeTag(s: string): (r: string)
    ensures |r| <= |s|
    decreases |s|
  {
    if s == [] then []
    else
      var n := DigitRun(s);
      if 0 < n < |s| && s[n] == '_' then StripTypeTag(s[n + 1..])
      else if StartsWithZip(s) then StripTypeTag(s[4..])
      else [s[0]] + StripTypeTag(s[1..])
  }

  /** `getClassForBackup`: the colour class of the stripped name, or `''` when it is no key. */
  function ClassForBackup(backupName: string): string {
    match TypeOfTag(StripTypeTag(backupName))
    case Some(t) => ClassOf(t)
    case None => ""
  }

  /** The class is `''` exactly when the stripped name is none of the four keys, and it is a
      type's class exactly when the stripped name is that type's tag. */
  lemma ClassForBackupSpec(backupName: string)
    ensures ClassForBackup(backupName) == "" <==> forall t :: Tag(t) != StripTypeTag(backupName)
    ensures forall t :: ClassForBackup(backupName) == ClassOf(t) <==> StripTypeTag(backupName) == Tag(t)
  {
    ClassesDistinct();
  }

  /** The seconds-since-epoch a name's leading digits denote (`timestamp * 1000` converts the matched text to a number). */
  function TimestampSeconds(name: string): nat {
    DigitsValue(name[..DigitRun(name)])
  }

  /** `getBackupDescriptionString`, with `new Date(ms).toLocaleString()` given as `localeString`. */
  function DescriptionString(backup: Option<Backup>, localeString: int -> string): string {
    match backup
    case None => ""
    case Some(b) =>
      var timestamp := b.name[..DigitRun(b.name)];
      if timestamp != "" then
        " (" + b.sizeString + ", Likely created on " + localeString(DigitsValue(timestamp) * 1000) + ")"
      else
        ""
  }

  /** No backup gives `''`; otherwise the description is non-empty exactly when the name starts
      with a digit, and then it is the size text and the date of the leading seconds. */
  lemma DescriptionStringSpec(backup: Option<Backup>, localeString: int -> string)
    ensures var r := DescriptionString(backup, localeString);
      (backup.None? ==> r == "") &&
      (backup.Some? ==> (r != "" <==> |backup.value.name| > 0 && IsDigit(backup.value.name[0]))) &&
      (r != "" ==>
        backup.Some? &&
        r == " (" + backup.value.sizeString + ", Likely created on "
             + localeString(1000 * TimestampSeconds(backup.value.name)) + ")")
  {
  }

  /** A non-empty description holds the backup's size text, right after the opening " (". */
  lemma DescriptionContainsSize(b: Backup, localeString: int -> string)
    requires DescriptionString(Some(b), localeString) != ""
    ensures var r := DescriptionString(Some(b), localeString);
      |r| >= 2 + |b.sizeString| && r[2..2 + |b.sizeString|] == b.sizeString
  {
    DescriptionStringSpec(Some(b), localeString);
    var r := DescriptionString(Some(b), localeString);
    var rest := ", Likely created on " + localeString(1000 * TimestampSeconds(b.name)) + ")";
    assert r == " (" + b.sizeString + rest;
  }

  /** Characters neither of the two patterns can start with. */
  predicate IsPlain(t: string) {
    forall i :: 0 <= i < |t| ==> !IsDigit(t[i]) && t[i] != '.'
  }

  /** A leading digit run ended by `_` is removed whole. */
  lemma StripTimestampPrefix(digits: string, rest: string)
    requires |digits| > 0 && AllDigits(digits)
    ensures StripTypeTag(digits + "_" + rest) == StripTypeTag(rest)
  {
    var s := digits + "_" + rest;
    DigitRunOf(s, |digits|);
    assert s[|digits| + 1..] == rest;
  }

  /** A plain text followed by a `.zip` of any case reduces to the text itself. */
  lemma {:induction false} StripPlainZip(t: string, ext: string)
    requires IsPlain(t) && |ext| == 4 && StartsWithZip(ext)
    ensures StripTypeTag(t + ext) == t
  {
    var s := t + ext;
    if t == [] {
      assert s == ext && s[4..] == [];
    } else {
      DigitRunOf(s, 0);
      assert s[1..] == t[1..] + ext;
      StripPlainZip(t[1..], ext);
    }
  }

  /** A plain text is left as it is. */
  lemma {:induction false} StripPlain(t: string)
    requires IsPlain(t)
    ensures StripTypeTag(t) == t
  {
    if t != [] {
      DigitRunOf(t, 0);
      StripPlain(t[1..]);
    }
  }

  lemma TagIsPlain(t: BackupType)
    ensures IsPlain(Tag(t))
  {
    var s := Tag(t);
    forall i | 0 <= i < |s| ensures !IsDigit(s[i]) && s[i] != '.' {
      match t
      case Scheduled => assert s == "SCHEDULED";
      case Manual => assert s == "MANUAL";
      case OnStop => assert s == "ON_STOP";
      case OnForcedStop => assert s == "ON_FORCED_STOP";
    }
  }

  /** The names the server writes, `<seconds>_<TYPE>.zip`, get the class of their type,
      whatever the case of the extension. */
  lemma ClassForTimestampedName(seconds: string, t: BackupType, ext: string)
    requires |seconds| > 0 && AllDigits(seconds)
    requires |ext| == 4 && StartsWithZip(ext)
    ensures ClassForBackup(seconds + "_" + Tag(t) + ext) == ClassOf(t)
  {
    assert seconds + "_" + Tag(t) + ext == seconds + "_" + (Tag(t) + ext);
    StripTimestampPrefix(seconds, Tag(t) + ext);
    TagIsPlain(t);
    StripPlainZip(Tag(t), ext);
  }


  // The examples below take the name as a parameter equal to a literal, so that the verifier
  // reasons from the general lemmas instead of unfolding the definitions on the literal.

  lemma ExampleScheduled(name: string)
    requires name == "1700000000_SCHEDULED.zip"
    ensures ClassForBackup(name) == "text-secondary"
  {
    assert name == "1700000000" + "_" + Tag(Scheduled) + ".zip";
    ClassForTimestampedName("1700000000", Scheduled, ".zip");
  }

  lemma ExampleForcedStopUpperCaseZip(name: string)
    requires name == "1700000000_ON_FORCED_STOP.ZIP"
    ensures ClassForBackup(name) == "text-danger"
  {
    assert name == "1700000000" + "_" + Tag(OnForcedStop) + ".ZIP";
    ClassForTimestampedName("1700000000", OnForcedStop, ".ZIP");
  }

  lemma ExampleUnknownType(name: string)
    requires name == "foo.zip"
    ensures ClassForBackup(name) == ""
  {
    assert name == "foo" + ".zip";
    StripPlainZip("foo", ".zip");
  }

  lemma SampleTimestampHead(digits: string)
    requires digits == "1700000000"
    ensures AllDigits(digits) && DigitsValue(digits[..5]) == 17000
  {
    assert AllDigits(digits);
    assert DigitsValue(digits[..1]) == 1 by {
      assert digits[0] == '1';
      DigitsValuePrefix(digits, 0);
    }
    assert DigitsValue(digits[..2]) == 17 by {
      assert digits[1] == '7';
      DigitsValuePrefix(digits, 1);
    }
    assert DigitsValue(digits[..3]) == 170 by {
      assert digits[2] == '0';
      DigitsValuePrefix(digits, 2);
    }
    assert DigitsValue(digits[..4]) == 1700 by {
      assert digits[3] == '0';
      DigitsValuePrefix(digits, 3);
    }
    assert DigitsValue(digits[..5]) == 17000 by {
      assert digits[4] == '0';
      DigitsValuePrefix(digits, 4);
    }
  }

  lemma SampleTimestampValue(digits: string)
    requires digits == "1700000000"
    ensures AllDigits(digits) && DigitsValue(digits) == 1700000000
  {
    SampleTimestampHead(digits);
    assert DigitsValue(digits[..6]) == 170000 by {
      assert digits[5] == '0';
      DigitsValuePrefix(digits, 5);
    }
    assert DigitsValue(digits[..7]) == 1700000 by {
      assert digits[6] == '0';
      DigitsValuePrefix(digits, 6);
    }
    assert DigitsValue(digits[..8]) == 17000000 by {
      assert digits[7] == '0';
      DigitsValuePrefix(digits, 7);
    }
    assert DigitsValue(digits[..9]) == 170000000 by {
      assert digits[8] == '0';
      DigitsValuePrefix(digits, 8);
    }
    assert DigitsValue(digits[..10]) == 1700000000 by {
      assert digits[9] == '0';
      DigitsValuePrefix(digits, 9);
    }
    assert digits[..10] == digits;
  }

  /** Whatever the size text, `1700000000_MANUAL.zip` is described with it and with the date
      of epoch second 1700000000. */
  lemma ExampleDescription(name: string, sizeString: string, localeString: int -> string)
    requires name == "1700000000_MANUAL.zip"
    ensures DescriptionString(Some(Backup(name, sizeString)), localeString)
         == " (" + sizeString + ", Likely created on " + localeString(1700000000000) + ")"
  {
    assert TimestampSeconds(name) == 1700000000 by {
      DigitRunOf(name, 10);
      SampleTimestampValue(name[..10]);
    }
  }

  lemma ExampleNoTimestamp(name: string, sizeString: string, localeString: int -> string)
    requires name == "nightly.zip" && sizeString == "1 KB"
    ensures DescriptionString(Some(Backup(name, sizeString)), localeString) == ""
  {
    DigitRunOf(name, 0);
  }
}
