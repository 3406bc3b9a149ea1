/**
  The document-root gate of the COLLADA builder (src/james/collada/builder.cpp):
  the `version` attribute of `<COLLADA>` is parsed as "major.minor.rest" and
  compared with the highest supported version, 1.4. A throw of
  `ColladaIOException` is modelled as a `Fail` carrying its message.
 */
module ColladaBuilder {
  import opened Wrappers
  import opened Scan
  import opened ExpatFacade

  datatype Outcome = Pass | Fail(message: string)

  const INVALID: string := "Invalid COLLADA version."
  const UNSUPPORTED: string := "Unsupported COLLADA version."

  /** `s.find_first_of(c, from)`: the first position at or after `from` holding `c`. */
  function FindFrom(s: string, c: char, from: nat): (r: Option<nat>)
    ensures r.Some? ==> from <= r.value < |s| && s[r.value] == c
    ensures r.Some? ==> forall k :: from <= k < r.value ==> s[k] != c
    ensures r.None? ==> forall k :: from <= k < |s| ==> s[k] != c
    decreases |s| - from
  {
    if from >= |s| then None
    else if s[from] == c then Some(from)
    else FindFrom(s, c, from + 1)
  }

  /** At least five characters and at least two dots. */
  predicate WellShaped(v: string) {
    |v| >= 5 && exists i, j :: 0 <= i < j < |v| && v[i] == '.' && v[j] == '.'
  }

  /** `i` and `j` are the positions of the first and the second dot of `v`. */
  predicate DotsAt(v: string, i: int, j: int) {
    && 0 <= i < j < |v| && v[i] == '.' && v[j] == '.'
    && forall k :: 0 <= k < j && k != i ==> v[k] != '.'
  }

  /** `atoi` of the text before the first dot. */
  ghost function Major(v: string): int
    requires WellShaped(v)
  {
    DotsFound(v);
    var i, j :| DotsAt(v, i, j);
    Atoi(v[..i])
  }

  /** `atoi` of the text between the first and the second dot. */
  ghost function Minor(v: string): int
    requires WellShaped(v)
  {
    DotsFound(v);
    var i, j :| DotsAt(v, i, j);
    Atoi(v[i + 1..j])
  }

  /**
    `CheckMaxVersion(maxMaj, maxMin, version)`. The version is invalid unless
    it is five characters or longer and has two dots; otherwise the major
    number is `atoi` of the text before the first dot and the minor number
    `atoi` of the text from the first dot up to and including the second,
    and the version is unsupported when either exceeds its maximum.
   */
  function CheckMaxVersion(maxMaj: int, maxMin: int, version: string): (r: Outcome)
    ensures r.Pass? || r == Fail(INVALID) || r == Fail(UNSUPPORTED)
    ensures |version| < 5 ==> r == Fail(INVALID)
    ensures r != Fail(INVALID) ==> WellShaped(version)
  {
    var firstDot := FindFrom(version, '.', 0);
    var secondDot := if firstDot.Some? then FindFrom(version, '.', firstDot.value + 1) else None;
    if |version| >= 5 && firstDot.Some? && secondDot.Some? then
      Compare(maxMaj, maxMin, MajorAt(version, firstDot.value), MinorAt(version, firstDot.value, secondDot.value))
    else
      Fail(INVALID)
  }

  /** `atoi(version.substr(0, firstDot))`. */
  function MajorAt(version: string, firstDot: nat): int
    requires firstDot <= |version|
  {
    Atoi(version[..firstDot])
  }

  /** `atoi(version.substr(firstDot + 1, secondDot - firstDot))`: the text between the dots and the second dot. */
  function MinorAt(version: string, firstDot: nat, secondDot: nat): int
    requires firstDot < secondDot < |version|
  {
    Atoi(version[firstDot + 1..secondDot + 1])
  }

  /** The comparison of a parsed version with the maximum, as the source writes it. */
  function Compare(maxMaj: int, maxMin: int, maj: int, min: int): Outcome {
    if maj > maxMaj || (maj <= maxMaj && min > maxMin) then Fail(UNSUPPORTED) else Pass
  }

  /** The version is refused as invalid exactly when it is shorter than five characters or has fewer than two dots. */
  lemma InvalidVersion(maxMaj: int, maxMin: int, version: string)
    ensures var r := CheckMaxVersion(maxMaj, maxMin, version);
            (r == Fail(INVALID) <==> !WellShaped(version))
            && (r.Pass? || r == Fail(INVALID) || r == Fail(UNSUPPORTED))
  {
    DotsFound(version);
  }

  /**
    A well-shaped version is unsupported exactly when its major number
    exceeds the maximum major or its minor number the maximum minor. The
    `maj <= maxMaj` conjunct of the source adds nothing, so a lower major
    with a higher minor is refused too.
   */
  lemma UnsupportedVersion(maxMaj: int, maxMin: int, version: string)
    requires WellShaped(version)
    ensures CheckMaxVersion(maxMaj, maxMin, version) == Fail(UNSUPPORTED)
            <==> Major(version) > maxMaj || Minor(version) > maxMin
  {
    DotsExist(version);
    var i, j :| DotsAt(version, i, j);
    VersionParts(version, i, j);
    MinorStopsAtDot(version, i, j);
    CheckAt(maxMaj, maxMin, version, i, j);
  }

  /** The three outcomes of the check, in terms of the version's shape and its two numbers. */
  lemma VersionOutcome(maxMaj: int, maxMin: int, version: string)
    ensures CheckMaxVersion(maxMaj, maxMin, version)
            == if !WellShaped(version) then Fail(INVALID)
               else if Major(version) > maxMaj || Minor(version) > maxMin then Fail(UNSUPPORTED)
               else Pass
  {
    InvalidVersion(maxMaj, maxMin, version);
    if WellShaped(version) {
      UnsupportedVersion(maxMaj, maxMin, version);
    }
  }

  /** A well-shaped version has a first and a second dot. */
  lemma DotsExist(v: string)
    requires WellShaped(v)
    ensures exists i, j :: DotsAt(v, i, j)
  {
    DotsFound(v);
    var first := FindFrom(v, '.', 0);
    var second := FindFrom(v, '.', first.value + 1);
    assert DotsAt(v, first.value, second.value);
  }

  /** With the first two dots at `i` and `j`, the check compares the text around them. */
  lemma CheckAt(maxMaj: int, maxMin: int, version: string, i: nat, j: nat)
    requires |version| >= 5 && DotsAt(version, i, j)
    ensures CheckMaxVersion(maxMaj, maxMin, version)
            == Compare(maxMaj, maxMin, MajorAt(version, i), MinorAt(version, i, j))
  {
    FindsDots(version, i, j);
    CheckFound(maxMaj, maxMin, version, i, j);
  }

  /** Once the two `find_first_of` calls have returned `i` and `j`, the check compares the text around them. */
  lemma CheckFound(maxMaj: int, maxMin: int, version: string, i: nat, j: nat)
    requires |version| >= 5 && i < j < |version|
    requires FindFrom(version, '.', 0) == Some(i) && FindFrom(version, '.', i + 1) == Some(j)
    ensures CheckMaxVersion(maxMaj, maxMin, version)
            == Compare(maxMaj, maxMin, MajorAt(version, i), MinorAt(version, i, j))
  {
    var firstDot := FindFrom(version, '.', 0);
    var secondDot := if firstDot.Some? then FindFrom(version, '.', firstDot.value + 1) else None;
    assert firstDot.value == i && secondDot == Some(j);
  }

  /** The two `find_first_of` calls return the positions of the first two dots. */
  lemma FindsDots(v: string, i: nat, j: nat)
    requires DotsAt(v, i, j)
    ensures FindFrom(v, '.', 0) == Some(i) && FindFrom(v, '.', i + 1) == Some(j)
  {
    assert v[i] == '.';
    assert v[j] == '.';
  }

  /** The two `find_first_of` calls succeed exactly when there are two dots, and then they find the first two. */
  lemma DotsFound(v: string)
    ensures var first := FindFrom(v, '.', 0);
            var second := if first.Some? then FindFrom(v, '.', first.value + 1) else None;
            && ((first.Some? && second.Some?) <==> exists i, j :: 0 <= i < j < |v| && v[i] == '.' && v[j] == '.')
            && (first.Some? && second.Some? ==> DotsAt(v, first.value, second.value))
            && (forall i, j :: DotsAt(v, i, j) ==> first == Some(i) && second == Some(j))
  {
    var first := FindFrom(v, '.', 0);
    if first.Some? {
      var second := FindFrom(v, '.', first.value + 1);
      if second.Some? {
        assert DotsAt(v, first.value, second.value);
      }
    }
  }

  /** `substr(firstDot + 1, secondDot - firstDot)` keeps the second dot, which `atoi` ignores. */
  lemma MinorStopsAtDot(v: string, i: nat, j: nat)
    requires i < j < |v| && v[j] == '.'
    ensures Atoi(v[i + 1..j + 1]) == Atoi(v[i + 1..j])
  {
    assert v[i + 1..j + 1] == v[i + 1..j] + ['.'];
    AtoiStopsAtDot(v[i + 1..j]);
  }

  /** The `/COLLADA` open listener: the root's `version` attribute against version 1.4. */
  function RootOpened(attrs: AttrArray): (r: Outcome)
    ensures var v := Value(attrs, "version");
            r == if !WellShaped(v) then Fail(INVALID)
                 else if Major(v) > 1 || Minor(v) > 4 then Fail(UNSUPPORTED)
                 else Pass
  {
    VersionOutcome(1, 4, Value(attrs, "version"));
    CheckMaxVersion(1, 4, Value(attrs, "version"))
  }

  lemma {:induction false} SkipSpaceBeforeNonSpace(s: string, c: char)
    requires !IsSpace(c)
    ensures SkipSpace(s + [c]) == SkipSpace(s) + [c]
  {
    if s != [] {
      assert (s + [c])[1..] == s[1..] + [c];
      SkipSpaceBeforeNonSpace(s[1..], c);
    }
  }

  lemma {:induction false} DigitRunBeforeNonDigit(s: string, c: char)
    requires !IsDigit(c)
    ensures DigitRun(s + [c]) == DigitRun(s)
  {
    if s != [] {
      assert (s + [c])[1..] == s[1..] + [c];
      DigitRunBeforeNonDigit(s[1..], c);
    }
  }

  lemma {:induction false} LeadingValueBeforeNonDigit(u: string, c: char)
    requires !IsDigit(c)
    ensures LeadingValue(u + [c]) == LeadingValue(u)
  {
    DigitRunBeforeNonDigit(u, c);
    assert (u + [c])[..DigitRun(u)] == u[..DigitRun(u)];
  }

  lemma SignedLeadingValueBeforeDot(t: string)
    ensures SignedLeadingValue(t + ['.']) == SignedLeadingValue(t)
  {
    if t == [] {
      assert t + ['.'] == [] + ['.'];
      LeadingValueBeforeNonDigit(t, '.');
    } else {
      assert (t + ['.'])[0] == t[0];
      assert (t + ['.'])[1..] == t[1..] + ['.'];
      LeadingValueBeforeNonDigit(t[1..], '.');
      LeadingValueBeforeNonDigit(t, '.');
    }
  }

  /** `atoi` stops at a dot, so the dot the source's `substr` keeps does not change the minor number. */
  lemma AtoiStopsAtDot(s: string)
    ensures Atoi(s + ['.']) == Atoi(s)
  {
    SkipSpaceBeforeNonSpace(s, '.');
    SignedLeadingValueBeforeDot(SkipSpace(s));
  }

  /** Given the positions of its first two dots, a version's parts are read around them. */
  lemma VersionParts(v: string, i: nat, j: nat)
    requires |v| >= 5 && DotsAt(v, i, j)
    ensures WellShaped(v) && Major(v) == Atoi(v[..i]) && Minor(v) == Atoi(v[i + 1..j])
  {
    assert v[i] == '.' && v[j] == '.';
    forall i', j' | DotsAt(v, i', j')
      ensures i' == i && j' == j
    {
      DotsUnique(v, i, j, i', j');
    }
  }

  /** A string has only one first and one second dot. */
  lemma DotsUnique(v: string, i: int, j: int, i': int, j': int)
    requires DotsAt(v, i, j) && DotsAt(v, i', j')
    ensures i == i' && j == j'
  {
    assert v[i] == '.' && v[i'] == '.';
  }

  lemma AtoiOfDigit(a: char)
    requires IsDigit(a)
    ensures Atoi([a]) == DigitValue(a)
  {
    var d := [a];
    assert AllDigits(d);
    assert d[..0] == [];
    assert DecimalValue(d) == DigitValue(a);
  }

  /** `atoi` of the text before position 1, when it is a digit. */
  lemma AtoiOfFirstDigit(v: string)
    requires 0 < |v| && IsDigit(v[0])
    ensures Atoi(v[..1]) == DigitValue(v[0])
  {
    assert v[..1] == [v[0]];
    AtoiOfDigit(v[0]);
  }

  /** `atoi` of the one-character text at `k`, when that character is a digit. */
  lemma AtoiOfDigitAt(v: string, k: nat)
    requires k < |v| && IsDigit(v[k])
    ensures Atoi(v[k..k + 1]) == DigitValue(v[k])
  {
    assert v[k..k + 1] == [v[k]];
    AtoiOfDigit(v[k]);
  }

  /** Five characters: a digit, a dot, a digit, a dot, anything. */
  predicate SingleDigitShape(v: string) {
    |v| == 5 && IsDigit(v[0]) && v[1] == '.' && IsDigit(v[2]) && v[3] == '.'
  }

  lemma SingleDigitMajor(v: string)
    requires SingleDigitShape(v)
    ensures WellShaped(v) && Major(v) == DigitValue(v[0])
  {
    assert DotsAt(v, 1, 3);
    VersionParts(v, 1, 3);
    AtoiOfFirstDigit(v);
  }

  lemma SingleDigitMinor(v: string)
    requires SingleDigitShape(v)
    ensures WellShaped(v) && Minor(v) == DigitValue(v[2])
  {
    assert DotsAt(v, 1, 3);
    VersionParts(v, 1, 3);
    AtoiOfDigitAt(v, 2);
  }

  /** A version "a.b.c" with one digit per part has major `a` and minor `b`. */
  lemma SingleDigitVersion(v: string)
    requires SingleDigitShape(v)
    ensures WellShaped(v) && Major(v) == DigitValue(v[0]) && Minor(v) == DigitValue(v[2])
  {
    SingleDigitMajor(v);
    SingleDigitMinor(v);
  }

  /** The root gate on a version "a.b.c" with one digit per part: refused when `a` exceeds 1 or `b` exceeds 4. */
  lemma RootGateSingleDigits(v: string)
    requires SingleDigitShape(v)
    ensures RootOpened(OneAttribute("version", v))
            == if DigitValue(v[0]) > 1 || DigitValue(v[2]) > 4 then Fail(UNSUPPORTED) else Pass
  {
    ValueOfOneAttribute("version", v);
    SingleDigitVersion(v);
  }

  /** The supported version passes the root gate. */
  lemma RootGateSupported()
    ensures RootOpened(OneAttribute("version", "1.4.1")) == Pass
  {
    var v := "1.4.1";
    assert v[0] == '1' && v[1] == '.' && v[2] == '4' && v[3] == '.';
    RootGateSingleDigits(v);
  }

  /** The next minor version is refused. */
  lemma RootGateNextMinor()
    ensures RootOpened(OneAttribute("version", "1.5.0")) == Fail(UNSUPPORTED)
  {
    var v := "1.5.0";
    assert v[0] == '1' && v[1] == '.' && v[2] == '5' && v[3] == '.';
    RootGateSingleDigits(v);
  }

  /** Because the source's second conjunct is redundant, a lower major with a higher minor is refused. */
  lemma RootGateLowerMajorHigherMinor()
    ensures RootOpened(OneAttribute("version", "0.9.0")) == Fail(UNSUPPORTED)
  {
    var v := "0.9.0";
    assert v[0] == '0' && v[1] == '.' && v[2] == '9' && v[3] == '.';
    RootGateSingleDigits(v);
  }

  /** A root without a `version` attribute reads it as "" and is refused as invalid, as is a version with one dot. */
  lemma RootGateMalformed()
    ensures RootOpened(OneAttribute("xmlns", "http://www.collada.org/2005/11/COLLADASchema")) == Fail(INVALID)
    ensures RootOpened(OneAttribute("version", "1.4")) == Fail(INVALID)
  {
    var missing := OneAttribute("xmlns", "http://www.collada.org/2005/11/COLLADASchema");
    assert Pairs(missing) == [Attribute("xmlns", "http://www.collada.org/2005/11/COLLADASchema")];
    assert Value(missing, "version") == "";
    ValueOfOneAttribute("version", "1.4");
  }
}
