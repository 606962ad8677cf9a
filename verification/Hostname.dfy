/** Hostnames: the validity check, and which subdomains a client may ask for. */
module Hostname {
  import opened Text

  const MAX_LABEL: nat := 63
  const MAX_NAME: nat := 253

  predicate IsUpper(c: char) { 'A' <= c <= 'Z' }

  predicate IsAlphanumeric(c: char) {
    IsDigit(c) || IsUpper(c) || 'a' <= c <= 'z'
  }

  /** A character outside ASCII is several bytes of 0x80 and more, all of them refused, so
      in accepted strings characters are bytes. */
  predicate IsValidChar(c: char) {
    IsAlphanumeric(c) || c == '-' || c == '.'
  }

  predicate BadLabel(l: string) {
    l == "" || |l| > MAX_LABEL || l[0] == '-' || l[|l| - 1] == '-'
  }

  predicate IsValid(hostname: string) {
    !((exists i :: 0 <= i < |hostname| && !IsValidChar(hostname[i]))
      || (exists i :: 0 <= i < |Split(hostname, '.')| && BadLabel(Split(hostname, '.')[i]))
      || hostname == ""
      || |hostname| > MAX_NAME)
  }

  /** A label: section 2.3.4 of RFC 1035, as relaxed by section 2.1 of RFC 1123. One to 63
      letters, digits and hyphens, with no hyphen at either end. */
  predicate IsLabel(l: string) {
    && 1 <= |l| <= 63 && l[0] != '-' && l[|l| - 1] != '-'
    && forall i :: 0 <= i < |l| ==> 'a' <= l[i] <= 'z' || 'A' <= l[i] <= 'Z' || '0' <= l[i] <= '9' || l[i] == '-'
  }

  ghost predicate AreLabels(labels: seq<string>) {
    labels != [] && forall i :: 0 <= i < |labels| ==> IsLabel(labels[i])
  }

  lemma ValidHasLabels(s: string)
    requires IsValid(s)
    ensures AreLabels(Split(s, '.')) && Join(Split(s, '.'), '.') == s
  {
    JoinOfSplit(s, '.');
    var labels := Split(s, '.');
    forall i | 0 <= i < |labels| ensures IsLabel(labels[i]) {
      assert !BadLabel(labels[i]);
      forall k | 0 <= k < |labels[i]| 
        ensures var c := labels[i][k]; 'a' <= c <= 'z' || 'A' <= c <= 'Z' || '0' <= c <= '9' || c == '-'
      {
        PartInJoin(labels, '.', i, labels[i][k]);
        assert labels[i][k] in labels[i] && labels[i][k] in s;
        assert IsValidChar(labels[i][k]);
      }
    }
  }

  lemma LabelsAreValid(labels: seq<string>)
    requires AreLabels(labels) && |Join(labels, '.')| <= MAX_NAME
    ensures IsValid(Join(labels, '.'))
  {
    var s := Join(labels, '.');
    assert NoneHas(labels, '.');
    SplitOfJoin(labels, '.');
    forall i | 0 <= i < |s| ensures IsValidChar(s[i]) {
      if s[i] != '.' {
        JoinHasPart(labels, '.', s[i]);
        var k :| 0 <= k < |labels| && s[i] in labels[k];
        assert IsLabel(labels[k]);
      }
    }
    forall i | 0 <= i < |labels| ensures !BadLabel(labels[i]) {
      assert IsLabel(labels[i]);
    }
    assert s != "" by {
      assert IsLabel(labels[0]);
      PartInJoin(labels, '.', 0, labels[0][0]);
    }
  }

  /** The check accepts exactly the strings of at most 253 characters that are labels joined
      by dots. */
  lemma ValidIff(s: string)
    ensures IsValid(s) <==> |s| <= 253 && exists labels :: AreLabels(labels) && Join(labels, '.') == s
  {
    if IsValid(s) {
      ValidHasLabels(s);
    }
    if |s| <= MAX_NAME && exists labels :: AreLabels(labels) && Join(labels, '.') == s {
      var labels :| AreLabels(labels) && Join(labels, '.') == s;
      LabelsAreValid(labels);
    }
  }

  lemma {:induction false} JoinConcat(a: seq<string>, b: seq<string>, sep: char)
    requires a != [] && b != []
    ensures Join(a + b, sep) == Join(a, sep) + [sep] + Join(b, sep)
  {
    if |a| == 1 {
      assert (a + b)[1..] == b;
    } else {
      assert (a + b)[1..] == a[1..] + b;
      JoinConcat(a[1..], b, sep);
    }
  }

  /** Two valid names joined by a dot are a valid name if it is not too long. */
  lemma ValidJoin(a: string, b: string)
    requires IsValid(a) && IsValid(b) && |a| + 1 + |b| <= 253
    ensures IsValid(a + "." + b)
  {
    ValidHasLabels(a);
    ValidHasLabels(b);
    var x, y := Split(a, '.'), Split(b, '.');
    JoinConcat(x, y, '.');
    assert AreLabels(x + y);
    LabelsAreValid(x + y);
  }

  // ---------- lower case

  function LowerChar(c: char): char {
    if IsUpper(c) then (c as int + 32) as char else c
  }

  function AsciiLower(s: string): string {
    seq(|s|, i requires 0 <= i < |s| => LowerChar(s[i]))
  }

  predicate NoUpper(s: string) {
    forall i :: 0 <= i < |s| ==> !IsUpper(s[i])
  }

  predicate IsAscii(s: string) {
    forall i :: 0 <= i < |s| ==> s[i] as int < 0x80
  }

  lemma LowerFixed(s: string)
    ensures AsciiLower(s) == s <==> NoUpper(s)
    ensures NoUpper(AsciiLower(s)) && |AsciiLower(s)| == |s|
  {
    if AsciiLower(s) == s {
      forall i | 0 <= i < |s| ensures !IsUpper(s[i]) {
        assert AsciiLower(s)[i] == s[i];
      }
    }
  }

  lemma LowerConcat(a: string, b: string)
    ensures AsciiLower(a + b) == AsciiLower(a) + AsciiLower(b)
  {
  }

  lemma LowerLabel(l: string)
    requires IsLabel(l)
    ensures IsLabel(AsciiLower(l))
  {
  }

  lemma {:induction false} LowerJoin(labels: seq<string>)
    requires AreLabels(labels)
    ensures exists lowered :: AreLabels(lowered) && Join(lowered, '.') == AsciiLower(Join(labels, '.'))
  {
    LowerLabel(labels[0]);
    if |labels| == 1 {
      assert AreLabels([AsciiLower(labels[0])]);
      assert Join([AsciiLower(labels[0])], '.') == AsciiLower(Join(labels, '.'));
    } else {
      assert AreLabels(labels[1..]);
      LowerJoin(labels[1..]);
      var rest :| AreLabels(rest) && Join(rest, '.') == AsciiLower(Join(labels[1..], '.'));
      LowerConcat(labels[0] + ".", Join(labels[1..], '.'));
      LowerConcat(labels[0], ".");
      assert AsciiLower(".") == ".";
      var lowered := [AsciiLower(labels[0])] + rest;
      assert lowered[1..] == rest;
      assert AreLabels(lowered) && Join(lowered, '.') == AsciiLower(Join(labels, '.'));
    }
  }

  /** Lowercasing keeps a name valid. */
  lemma ValidLower(s: string)
    requires IsValid(s)
    ensures IsValid(AsciiLower(s))
  {
    ValidHasLabels(s);
    LowerJoin(Split(s, '.'));
    var lowered :| AreLabels(lowered) && Join(lowered, '.') == AsciiLower(s);
    LabelsAreValid(lowered);
  }
}
