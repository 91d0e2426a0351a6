/**
  A script file of a migrations directory: its classification by file name,
  its identity (the MD5 of its name) and content fingerprint (the SHA-1 of
  its text), the comparison of fingerprints and the ordering of scripts.
*/
module ScriptFiles {
  import opened Wrappers
  import opened NumberParsing

  /** A `System.Guid` built from a 128-bit MD5 digest: 16 bytes. */
  type Guid = g: seq<bv8> | |g| == 16 witness [0, 0, 0, 0, 0, 0, 0, 0, 0, 0, 0, 0, 0, 0, 0, 0]

  /** The two subclasses of `ScriptFile`: `MigrationScript` carries a serial number. */
  datatype ScriptKind = Migration(serialNumber: int) | Repeatable

  /** The values a subclass gives to `ConflictOnContent` and `IsDesiredState`. */
  datatype KindPolicy = KindPolicy(conflictOnContent: bool, isDesiredState: bool)

  /** One `KindPolicy` per subclass; the subclasses are not part of this model. */
  datatype Policies = Policies(migration: KindPolicy, repeatable: KindPolicy)

  /** The intended policy: migrations must not change, repeatable scripts always re-run. */
  const INTENDED_POLICIES: Policies :=
    Policies(KindPolicy(true, false), KindPolicy(false, true))

  datatype ScriptFile = ScriptFile(
    filePath: string,
    fileName: string,
    fileNameHash: Guid,
    content: string,
    contentSha1Hash: string,
    kind: ScriptKind,
    conflictOnContent: bool,
    isDesiredState: bool)

  /** `s.IndexOf(c)` (ordinal): the first position of `c`, or -1. */
  function IndexOf(s: string, c: char): (r: int)
    ensures -1 <= r < |s|
    ensures r == -1 <==> c !in s
    ensures 0 <= r ==> s[r] == c && c !in s[..r]
  {
    if s == [] then -1
    else if s[0] == c then 0
    else
      var k := IndexOf(s[1..], c);
      if k == -1 then -1
      else
        assert s[..k + 1] == [s[0]] + s[1..][..k];
        k + 1
  }

  /** The classification made by `ScriptFile.Load`. */
  function Classify(fileName: string): (k: ScriptKind)
    ensures k.Migration? ==> InInt32(k.serialNumber)
  {
    var underscoreIndex := IndexOf(fileName, '_');
    if underscoreIndex > 0 then
      match TryParseInt32(fileName[..underscoreIndex])
      case Some(n) => Migration(n)
      case None => Repeatable
    else Repeatable
  }

  /** The file name has a first `_` at index > 0, and the text before it parses as a 32-bit integer. */
  ghost predicate HasSerialPrefix(fileName: string) {
    exists i :: 0 < i < |fileName| && fileName[i] == '_' && '_' !in fileName[..i]
                && TryParseInt32(fileName[..i]).Some?
  }

  function PolicyOf(policies: Policies, kind: ScriptKind): KindPolicy {
    if kind.Migration? then policies.migration else policies.repeatable
  }

  /**
    `ScriptFile.Load` with the constructor it calls. The file's text is given
    (the read is not modelled), and so are the two hash functions.
  */
  function Load(
    filePath: string, fileName: string, content: string,
    md5: string -> Guid, sha1: string -> string, policies: Policies): (f: ScriptFile)
    ensures f.kind.Migration? <==> HasSerialPrefix(fileName)
    ensures f.kind.Migration? ==> InInt32(f.kind.serialNumber)
  {
    ClassifyMigrationIff(fileName);
    var kind := Classify(fileName);
    var policy := PolicyOf(policies, kind);
    ScriptFile(filePath, fileName, md5(fileName), content, sha1(content),
               kind, policy.conflictOnContent, policy.isDesiredState)
  }

  /** The name hash depends on the file name alone: not on the path, nor on the content. */
  lemma NameHashDependsOnNameOnly(
    path1: string, path2: string, name: string, content1: string, content2: string,
    md5: string -> Guid, sha1: string -> string, policies: Policies)
    ensures Load(path1, name, content1, md5, sha1, policies).fileNameHash
         == Load(path2, name, content2, md5, sha1, policies).fileNameHash
         == md5(name)
  {
  }

  /** The content hash and the policy flags come from the content and the kind. */
  lemma LoadFlags(
    path: string, name: string, content: string,
    md5: string -> Guid, sha1: string -> string, policies: Policies)
    ensures var f := Load(path, name, content, md5, sha1, policies);
      && f.contentSha1Hash == sha1(content)
      && f.kind == Classify(name)
      && (f.kind.Migration? ==>
            f.conflictOnContent == policies.migration.conflictOnContent &&
            f.isDesiredState == policies.migration.isDesiredState)
      && (f.kind.Repeatable? ==>
            f.conflictOnContent == policies.repeatable.conflictOnContent &&
            f.isDesiredState == policies.repeatable.isDesiredState)
  {
  }

  /**
    Under the intended policy a script conflicts on changed content exactly
    when it is not a desired-state script, and that is exactly when its name
    carries a serial-number prefix.
  */
  lemma IntendedFlags(
    path: string, name: string, content: string, md5: string -> Guid, sha1: string -> string)
    ensures var f := Load(path, name, content, md5, sha1, INTENDED_POLICIES);
      && (f.conflictOnContent <==> !f.isDesiredState)
      && (!f.isDesiredState <==> HasSerialPrefix(name))
  {
    LoadFlags(path, name, content, md5, sha1, INTENDED_POLICIES);
  }

  /** No `_`, or a `_` at index 0: a repeatable script. */
  lemma ClassifyWithoutPrefix(fileName: string)
    requires '_' !in fileName || fileName[0] == '_'
    ensures Classify(fileName) == Repeatable
  {
  }

  /** A prefix before the first `_` that parses gives a migration with the parsed serial number. */
  lemma ClassifyParsedPrefix(fileName: string, i: nat, n: int)
    requires 0 < i < |fileName| && fileName[i] == '_' && '_' !in fileName[..i]
    requires TryParseInt32(fileName[..i]) == Some(n)
    ensures Classify(fileName) == Migration(n)
  {
    IndexOfFirst(fileName, '_', i);
  }

  /** A prefix before the first `_` that does not parse gives a repeatable script. */
  lemma ClassifyUnparsedPrefix(fileName: string, i: nat)
    requires 0 < i < |fileName| && fileName[i] == '_' && '_' !in fileName[..i]
    requires TryParseInt32(fileName[..i]) == None
    ensures Classify(fileName) == Repeatable
  {
    IndexOfFirst(fileName, '_', i);
  }

  /** Both directions: a name is a migration exactly when its prefix before a first `_` at index > 0 parses. */
  lemma ClassifyMigrationIff(fileName: string)
    ensures Classify(fileName).Migration? <==> HasSerialPrefix(fileName)
  {
    var k := IndexOf(fileName, '_');
    if Classify(fileName).Migration? {
      assert 0 < k < |fileName| && fileName[k] == '_' && '_' !in fileName[..k];
    }
    if HasSerialPrefix(fileName) {
      var i :| 0 < i < |fileName| && fileName[i] == '_' && '_' !in fileName[..i]
               && TryParseInt32(fileName[..i]).Some?;
      IndexOfFirst(fileName, '_', i);
    }
  }

  lemma IndexOfFirst(s: string, c: char, i: nat)
    requires i < |s| && s[i] == c && c !in s[..i]
    ensures IndexOf(s, c) == i
  {
    assert s[i] == c;
  }

  lemma {:induction false} IndexOfAfterPrefix(prefix: string, c: char, rest: string)
    requires c !in prefix
    ensures IndexOf(prefix + [c] + rest, c) == |prefix|
  {
    var s := prefix + [c] + rest;
    assert s[..|prefix|] == prefix;
    IndexOfFirst(s, c, |prefix|);
  }

  /** Only the text before the first `_` matters: what follows it, further `_` included, does not. */
  lemma ClassifyIgnoresSuffix(prefix: string, rest1: string, rest2: string)
    requires '_' !in prefix
    ensures Classify(prefix + "_" + rest1) == Classify(prefix + "_" + rest2)
  {
    IndexOfAfterPrefix(prefix, '_', rest1);
    IndexOfAfterPrefix(prefix, '_', rest2);
    assert (prefix + "_" + rest1)[..|prefix|] == prefix;
    assert (prefix + "_" + rest2)[..|prefix|] == prefix;
  }

  /** `NNN_description.sql`, leading zeros allowed: a migration whose serial number is NNN. */
  lemma ClassifyNumberedName(digits: string, rest: string)
    requires |digits| > 0 && AllDigits(digits) && DigitsValue(digits) <= MAX_INT32
    ensures Classify(digits + "_" + rest) == Migration(DigitsValue(digits))
  {
    assert '_' !in digits by {
      forall i | 0 <= i < |digits| ensures digits[i] != '_' {
        assert IsDigit(digits[i]);
      }
    }
    IndexOfAfterPrefix(digits, '_', rest);
    assert (digits + "_" + rest)[..|digits|] == digits;
    ParseDigits(digits);
  }

  /** A prefix holding a character no numeral has, as in `1a_create.sql`, gives a repeatable script. */
  lemma ClassifyForeignPrefix(prefix: string, rest: string, i: nat)
    requires '_' !in prefix
    requires i < |prefix| && !IsNumeralChar(prefix[i])
    ensures Classify(prefix + "_" + rest) == Repeatable
  {
    IndexOfAfterPrefix(prefix, '_', rest);
    assert (prefix + "_" + rest)[..|prefix|] == prefix;
    ParseRejectsForeignChar(prefix, i);
  }

  /** Every 32-bit serial number, written as `n.ToString()` before the `_`, is recovered. */
  lemma ClassifySerialRoundTrip(n: int, rest: string)
    requires InInt32(n)
    ensures Classify(Int32ToString(n) + "_" + rest) == Migration(n)
  {
    var text := Int32ToString(n);
    IndexOfAfterPrefix(text, '_', rest);
    assert (text + "_" + rest)[..|text|] == text;
    ParseFormatted(n, "", "");
    assert "" + text + "" == text;
  }

  /** `char.ToUpperInvariant` restricted to ASCII letters. */
  function ToUpperAscii(c: char): char {
    if 'a' <= c <= 'z' then (c as int - 32) as char else c
  }

  /** `string.Equals(a, b, StringComparison.OrdinalIgnoreCase)`. */
  function EqualsIgnoreCase(a: string, b: string): (r: bool)
    ensures r <==> |a| == |b| && forall i :: 0 <= i < |a| ==> ToUpperAscii(a[i]) == ToUpperAscii(b[i])
  {
    if a == [] then b == []
    else
      && b != []
      && ToUpperAscii(a[0]) == ToUpperAscii(b[0])
      && EqualsIgnoreCase(a[1..], b[1..])
  }

  /** `ScriptFile.ContentMatches`: the file's content hash equals `contentSha1Hash` up to letter case. */
  function ContentMatches(file: ScriptFile, contentSha1Hash: string): (b: bool)
    ensures b <==>
      && |contentSha1Hash| == |file.contentSha1Hash|
      && forall i :: 0 <= i < |contentSha1Hash| ==> ToUpperAscii(contentSha1Hash[i]) == ToUpperAscii(file.contentSha1Hash[i])
    ensures contentSha1Hash == file.contentSha1Hash ==> b
  {
    EqualsIgnoreCase(file.contentSha1Hash, contentSha1Hash)
  }

  /** `ContentMatches` is an equivalence on hash strings: reflexive, symmetric, transitive. */
  lemma ContentMatchesEquivalence(file: ScriptFile, h1: string, h2: string)
    ensures ContentMatches(file, file.contentSha1Hash)
    ensures EqualsIgnoreCase(h1, h2) == EqualsIgnoreCase(h2, h1)
    ensures ContentMatches(file, h1) && EqualsIgnoreCase(h1, h2) ==> ContentMatches(file, h2)
  {
  }

  /** Letter case does not matter: "ABCD" matches "abcd"; a different digit does. */
  lemma ContentMatchesIgnoresCase(file: ScriptFile)
    requires file.contentSha1Hash == "ABCD"
    ensures ContentMatches(file, "abcd")
    ensures !ContentMatches(file, "abce")
  {
    assert ToUpperAscii("abce"[3]) == 'E';
  }

  /** Ordinal comparison of names: negative, zero or positive, as `string.CompareOrdinal`'s sign. */
  function CompareOrdinal(a: string, b: string): (r: int)
    ensures -1 <= r <= 1
    ensures r == 0 <==> a == b
  {
    if a == [] then (if b == [] then 0 else -1)
    else if b == [] then 1
    else if a[0] < b[0] then -1
    else if a[0] > b[0] then 1
    else
      var r := CompareOrdinal(a[1..], b[1..]);
      assert r == 0 ==> a == [a[0]] + a[1..] == [b[0]] + b[1..] == b;
      r
  }

  lemma {:induction false} CompareOrdinalAntisymmetric(a: string, b: string)
    ensures CompareOrdinal(b, a) == -CompareOrdinal(a, b)
  {
    if a != [] && b != [] && a[0] == b[0] {
      CompareOrdinalAntisymmetric(a[1..], b[1..]);
    }
  }

  lemma {:induction false} CompareOrdinalTransitive(a: string, b: string, c: string)
    requires CompareOrdinal(a, b) < 0 && CompareOrdinal(b, c) < 0
    ensures CompareOrdinal(a, c) < 0
  {
    if a != [] && b != [] && c != [] && a[0] == b[0] == c[0] {
      CompareOrdinalTransitive(a[1..], b[1..], c[1..]);
    }
  }

  /** `ScriptFile.CompareTo(ScriptFile)`: scripts are ordered by file name. */
  function CompareTo(self: ScriptFile, other: ScriptFile): (r: int)
    ensures r == 0 <==> self.fileName == other.fileName
  {
    CompareOrdinal(self.fileName, other.fileName)
  }

  /** `CompareTo` is a total order on file names: antisymmetric and transitive. */
  lemma CompareToOrder(x: ScriptFile, y: ScriptFile, z: ScriptFile)
    ensures CompareTo(y, x) == -CompareTo(x, y)
    ensures CompareTo(x, y) < 0 && CompareTo(y, z) < 0 ==> CompareTo(x, z) < 0
  {
    CompareOrdinalAntisymmetric(x.fileName, y.fileName);
    if CompareTo(x, y) < 0 && CompareTo(y, z) < 0 {
      CompareOrdinalTransitive(x.fileName, y.fileName, z.fileName);
    }
  }

  /** The argument of `CompareTo(object)`: null, an object of another class, or a script. */
  datatype Operand = Null | NotAScript | Script(file: ScriptFile, sameReference: bool)

  datatype CompareError = InvalidOperation

  /**
    `ScriptFile.CompareTo(object)`: 0 for the same reference, the name order
    for another script, and `InvalidOperationException` for anything else.
  */
  function CompareToObject(self: ScriptFile, obj: Operand): (r: Result<int, CompareError>)
    requires obj.Script? && obj.sameReference ==> obj.file == self
    ensures r.Failure? <==> !obj.Script?
    ensures r.Success? ==> (r.value == 0 <==> self.fileName == obj.file.fileName)
    ensures obj.Script? && obj.sameReference ==> r == Success(0)
  {
    match obj
    case Script(other, same) => if same then Success(0) else Success(CompareTo(self, other))
    case _ => Failure(InvalidOperation)
  }
}
