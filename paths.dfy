/**
 * How StartRecording chooses the file it records to: the existence and
 * "already recording" checks, the name built when no path is given, and
 * the ".ljr" suffix.
 */
module Paths {
  import opened Wrappers

  const Suffix := ".ljr"
  const UnknownDevice := "UnknownDevice"

  /** LtStringUtils::ToLower, one character at a time (ASCII letters only). */
  function LowerChar(c: char): char {
    if 'A' <= c <= 'Z' then (c as int + 32) as char else c
  }

  function ToLower(s: string): (r: string)
    ensures |r| == |s|
  {
    seq(|s|, i requires 0 <= i < |s| => LowerChar(s[i]))
  }

  /** The lower-cased path ends in ".ljr". */
  predicate EndsWithSuffix(p: string) {
    |p| >= 4 && ToLower(p)[|p| - 4..] == Suffix
  }

  /** ".ljr" is appended only to a path longer than four characters whose
      lower-cased form does not already end in ".ljr". */
  function WithSuffix(p: string): string {
    if |p| > 4 && !EndsWithSuffix(p) then p + Suffix else p
  }

  /** The name used when no path is given: the device name (or
      "UnknownDevice" when the sensor has no device-name property), an
      underscore, and the local time formatted as %Y-%m-%d_%H-%M-%S. */
  function DefaultName(deviceName: Option<string>, stamp: string): (r: string)
    ensures |r| > |stamp|
  {
    match deviceName
    case Some(name) => name + "_" + stamp
    case None => UnknownDevice + "_" + stamp
  }

  /** std::ifstream(p).good(): the path names an existing file. An empty path
      never does. */
  predicate Exists(files: set<string>, p: string) {
    p != "" && p in files
  }

  /** The path StartRecording opens, or the exception it raises first,
      exactly as written: the existence check looks at the path as given,
      before any name is built and before the suffix is appended. */
  function StartTargetAsWritten(aPath: string, files: set<string>, recording: bool,
                                deviceName: Option<string>, stamp: string): (r: Result<string>)
    ensures Exists(files, aPath) ==> r == Err(InvalidArgument)
    ensures !Exists(files, aPath) && recording ==> r == Err(LogicError)
    ensures r.Ok? <==> !recording && !Exists(files, aPath)
    ensures r.Ok? ==> WithSuffix(r.value) == r.value && (aPath != "" ==> aPath <= r.value)
  {
    var base := if aPath == "" then DefaultName(deviceName, stamp) else aPath;
    SuffixIdempotent(base);
    SuffixRule(base);
    if Exists(files, aPath) then Err(InvalidArgument)
    else if recording then Err(LogicError)
    else Ok(WithSuffix(base))
  }

  /** The same checks in the same order, and the existence check repeated on
      the path that is finally opened. */
  function StartTarget(aPath: string, files: set<string>, recording: bool,
                       deviceName: Option<string>, stamp: string): Result<string>
  {
    match StartTargetAsWritten(aPath, files, recording, deviceName, stamp)
    case Err(e) => Err(e)
    case Ok(p) => if Exists(files, p) then Err(InvalidArgument) else Ok(p)
  }

  // The suffix

  lemma ToLowerAppend(a: string, b: string)
    ensures ToLower(a + b) == ToLower(a) + ToLower(b)
  {
    assert forall i | 0 <= i < |a + b| :: ToLower(a + b)[i] == (ToLower(a) + ToLower(b))[i];
  }

  /** The rule only ever appends ".ljr" to the path as given, and only to a
      path without it; afterwards the path ends in ".ljr" (in any case)
      exactly when it is longer than four characters or already did. */
  lemma SuffixRule(p: string)
    ensures WithSuffix(p) == p || WithSuffix(p) == p + Suffix
    ensures p <= WithSuffix(p)
    ensures WithSuffix(p) != p ==> !EndsWithSuffix(p)
    ensures EndsWithSuffix(WithSuffix(p)) <==> |p| > 4 || EndsWithSuffix(p)
  {
    if |p| > 4 {
      SuffixPresent(p);
    }
  }

  /** A path longer than four characters always ends up with the suffix. */
  lemma SuffixPresent(p: string)
    requires |p| > 4
    ensures EndsWithSuffix(WithSuffix(p))
  {
    if !EndsWithSuffix(p) {
      ToLowerAppend(p, Suffix);
      var q := p + Suffix;
      assert ToLower(Suffix) == Suffix;
      assert ToLower(q)[|q| - 4..] == ToLower(Suffix);
    }
  }

  /** Appending the suffix twice changes nothing more. */
  lemma SuffixIdempotent(p: string)
    ensures WithSuffix(WithSuffix(p)) == WithSuffix(p)
  {
    if |p| > 4 {
      SuffixPresent(p);
    }
  }

  /** Two edge cases of the rule: an upper-case suffix is kept as it is, and a
      path of four characters or fewer gets no suffix. */
  lemma SuffixEdgeCases()
    ensures WithSuffix("x.LJR") == "x.LJR"
    ensures WithSuffix("abcd") == "abcd"
  {
    assert ToLower("x.LJR") == "x.ljr";
    assert ToLower("x.LJR")[1..] == Suffix;
  }

  // The name built for an empty path

  /** What strftime("%Y-%m-%d_%H-%M-%S") produces for a four-digit year:
      19 characters, digits, dashes and an underscore. */
  predicate IsStamp(stamp: string) {
    |stamp| == 19 && forall i | 0 <= i < |stamp| :: '0' <= stamp[i] <= '9' || stamp[i] == '-' || stamp[i] == '_'
  }

  /** An empty path records to "<device name>_<stamp>.ljr", or to
      "UnknownDevice_<stamp>.ljr" without a device name. */
  lemma DefaultTarget(files: set<string>, deviceName: Option<string>, stamp: string)
    requires IsStamp(stamp)
    ensures StartTargetAsWritten("", files, false, deviceName, stamp)
         == Ok((if deviceName.Some? then deviceName.value else UnknownDevice) + "_" + stamp + Suffix)
  {
    var name := DefaultName(deviceName, stamp);
    var last := name[|name| - 1];
    assert last == stamp[|stamp| - 1];
    assert ToLower(name)[|name| - 1] == LowerChar(last) != 'r';
    assert !EndsWithSuffix(name);
  }

  // The checks

  /** The existence check comes first, before the "already recording" check;
      a successful start opens a file that did not exist, with the suffix. */
  lemma StartTargetChecks(aPath: string, files: set<string>, recording: bool,
                          deviceName: Option<string>, stamp: string)
    ensures Exists(files, aPath) ==> StartTarget(aPath, files, recording, deviceName, stamp) == Err(InvalidArgument)
    ensures !Exists(files, aPath) && recording ==> StartTarget(aPath, files, recording, deviceName, stamp) == Err(LogicError)
    ensures StartTarget(aPath, files, recording, deviceName, stamp).Ok? <==>
              !recording && !Exists(files, aPath)
              && !Exists(files, WithSuffix(if aPath == "" then DefaultName(deviceName, stamp) else aPath))
    ensures StartTarget(aPath, files, recording, deviceName, stamp).Ok? ==>
              var p := StartTarget(aPath, files, recording, deviceName, stamp).value;
              p !in files && WithSuffix(p) == p
  {
    var base := if aPath == "" then DefaultName(deviceName, stamp) else aPath;
    SuffixIdempotent(base);
  }

  /** The check as written lets StartRecording("record") open, and so
      truncate, an existing "record.ljr". */
  lemma AsWrittenOverwrites()
    ensures StartTargetAsWritten("record", {"record.ljr"}, false, None, "") == Ok("record.ljr")
    ensures StartTarget("record", {"record.ljr"}, false, None, "") == Err(InvalidArgument)
  {
    assert ToLower("record")[2..] == "cord";
    assert !EndsWithSuffix("record");
    assert "record" + Suffix == "record.ljr";
  }

  /** The repeated check only adds a refusal: wherever it lets a start
      through, the checks as written do too, with the same path. */
  lemma StartTargetRefinesAsWritten(aPath: string, files: set<string>, recording: bool,
                                    deviceName: Option<string>, stamp: string)
    ensures StartTarget(aPath, files, recording, deviceName, stamp).Ok? ==>
              StartTarget(aPath, files, recording, deviceName, stamp)
              == StartTargetAsWritten(aPath, files, recording, deviceName, stamp)
    ensures StartTargetAsWritten(aPath, files, recording, deviceName, stamp).Err? ==>
              StartTarget(aPath, files, recording, deviceName, stamp)
              == StartTargetAsWritten(aPath, files, recording, deviceName, stamp)
  {
  }
}
