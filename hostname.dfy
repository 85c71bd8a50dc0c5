/**
 * `is_valid_hostname`: a structural check of a DNS name. Labels follow the
 * letter-digit-hyphen syntax of RFC 1035 section 2.3.1 as relaxed by RFC 1123
 * section 2.1 (a label may start with a digit); sizes follow RFC 1035 section
 * 2.3.4 (63 characters per label, 253 for the name without its trailing dot).
 * One trailing dot is allowed, and a name made only of digits and dots is
 * refused because it reads as an IPv4 literal.
 */
module Hostname {
  import opened Text

  const MAX_NAME_LENGTH := 253
  const MAX_LABEL_LENGTH := 63

  predicate IsAsciiLetter(c: char) {
    'a' <= c <= 'z' || 'A' <= c <= 'Z'
  }

  predicate IsAlnum(c: char) {
    IsAsciiLetter(c) || IsDigit(c)
  }

  /** A letter, a digit or a hyphen. */
  predicate IsLdh(c: char) {
    IsAlnum(c) || c == '-'
  }

  /** `[A-Za-z0-9]([A-Za-z0-9-]*[A-Za-z0-9])?`, at most 63 characters long. */
  predicate IsValidLabel(l: string)
    ensures IsValidLabel(l) ==> |l| >= 1 && NoDot(l) && l[0] != '-' && l[|l| - 1] != '-'
  {
    1 <= |l| <= MAX_LABEL_LENGTH
    && IsAlnum(l[0]) && IsAlnum(l[|l| - 1])
    && forall i :: 0 <= i < |l| ==> IsLdh(l[i])
  }

  predicate AllLabelsValid(labels: seq<string>) {
    forall i :: 0 <= i < |labels| ==> IsValidLabel(labels[i])
  }

  predicate EndsWithDot(s: string) {
    |s| > 0 && s[|s| - 1] == '.'
  }

  /** Every character is a digit or a dot: the name reads as a numeric address. */
  predicate AllNumeric(name: string) {
    forall i :: 0 <= i < |name| ==> name[i] == '.' || IsDigit(name[i])
  }

  function StripTrailingDot(hostname: string): (name: string)
    ensures EndsWithDot(hostname) ==> hostname == name + "."
    ensures !EndsWithDot(hostname) ==> name == hostname
  {
    if EndsWithDot(hostname) then hostname[..|hostname| - 1] else hostname
  }

  predicate NoDot(l: string) {
    '.' !in l
  }

  predicate NoDots(labels: seq<string>) {
    forall i :: 0 <= i < |labels| ==> NoDot(labels[i])
  }

  /** `s.split(".")`: the pieces between dots, one more than there are dots. */
  function Split(s: string): (labels: seq<string>)
    ensures |labels| >= 1 && NoDots(labels)
  {
    if s == [] then
      [""]
    else
      var rest := Split(s[1..]);
      if s[0] == '.' then [""] + rest else [[s[0]] + rest[0]] + rest[1..]
  }

  /** `".".join(labels)`. */
  function Join(labels: seq<string>): (s: string)
    requires |labels| >= 1
  {
    JoinWith(".", labels)
  }

  /** `is_valid_hostname(hostname)`. */
  predicate IsValidHostname(hostname: string)
    ensures IsValidHostname(hostname) ==> 1 <= |hostname| <= MAX_NAME_LENGTH + 1 && !AllNumeric(hostname)
  {
    var name := StripTrailingDot(hostname);
    !EndsWithDot(name)
    && |name| <= MAX_NAME_LENGTH
    && AllLabelsValid(Split(name))
    && !AllNumeric(name)
  }

  // ---------------------------------------------------------------------------
  // Splitting and joining are inverse to each other.

  /** Joining the pieces of a split gives back the string. */
  lemma {:induction false} JoinSplit(s: string)
    ensures Join(Split(s)) == s
  {
    if s != [] {
      JoinSplit(s[1..]);
      var rest := Split(s[1..]);
      if s[0] == '.' {
        assert Split(s)[1..] == rest;
      } else {
        var labels := Split(s);
        if |rest| == 1 {
          assert labels == [[s[0]] + rest[0]];
        } else {
          assert labels[1..] == rest[1..];
          assert Join(rest) == rest[0] + "." + Join(rest[1..]);
        }
      }
    }
  }

  /** Splitting a dot-free prefix glued to the first piece of `s`. */
  lemma {:induction false} SplitPrefix(p: string, s: string)
    requires NoDot(p)
    ensures Split(p + s) == [p + Split(s)[0]] + Split(s)[1..]
  {
    if p != [] {
      assert (p + s)[1..] == p[1..] + s;
      SplitPrefix(p[1..], s);
      assert [p[0]] + (p[1..] + Split(s)[0]) == p + Split(s)[0];
    } else {
      assert p + s == s;
      assert p + Split(s)[0] == Split(s)[0];
      assert [Split(s)[0]] + Split(s)[1..] == Split(s);
    }
  }

  /** Splitting a join of dot-free labels gives back the labels. */
  lemma {:induction false} SplitJoin(labels: seq<string>)
    requires |labels| >= 1 && NoDots(labels)
    ensures Split(Join(labels)) == labels
  {
    if |labels| == 1 {
      SplitPrefix(labels[0], "");
      assert labels[0] + "" == labels[0];
    } else {
      var tail := Join(labels[1..]);
      SplitJoin(labels[1..]);
      assert Join(labels) == labels[0] + ("." + tail);
      assert ("." + tail)[1..] == tail;
      assert Split("." + tail) == [""] + labels[1..];
      SplitPrefix(labels[0], "." + tail);
      assert labels[0] + "" == labels[0];
      assert [labels[0]] + labels[1..] == labels;
    }
  }

  // ---------------------------------------------------------------------------
  // What a valid name is made of, and when a name is refused.

  /** A valid name is a dot-join of valid labels, at most 253 characters, optionally followed by one dot. */
  lemma ValidDecomposes(hostname: string)
    requires IsValidHostname(hostname)
    ensures var labels := Split(StripTrailingDot(hostname));
      AllLabelsValid(labels)
      && |Join(labels)| <= MAX_NAME_LENGTH
      && (hostname == Join(labels) || hostname == Join(labels) + ".")
      && |hostname| <= MAX_NAME_LENGTH + 1
      && exists i :: 0 <= i < |hostname| && hostname[i] != '.' && !IsDigit(hostname[i])
  {
    var name := StripTrailingDot(hostname);
    JoinSplit(name);
    var i :| 0 <= i < |name| && name[i] != '.' && !IsDigit(name[i]);
    assert hostname[i] == name[i];
  }

  /** A valid name has at most 127 labels: each takes at least one character and a dot. */
  lemma ValidLabelCount(hostname: string)
    requires IsValidHostname(hostname)
    ensures |Split(StripTrailingDot(hostname))| <= (MAX_NAME_LENGTH + 1) / 2
  {
    var labels := Split(StripTrailingDot(hostname));
    JoinSplit(StripTrailingDot(hostname));
    JoinLength(".", labels);
    NonEmptyTotalLength(labels);
  }

  lemma {:induction false} NonEmptyTotalLength(labels: seq<string>)
    requires AllLabelsValid(labels)
    ensures TotalLength(labels) >= |labels|
  {
    if labels != [] {
      NonEmptyTotalLength(labels[1..]);
    }
  }

  /** The converse: valid labels joined by dots, short enough and not all digits, make a valid name, with or without a trailing dot. */
  lemma ValidFromLabels(labels: seq<string>, trailingDot: bool)
    requires |labels| >= 1 && AllLabelsValid(labels)
    requires |Join(labels)| <= MAX_NAME_LENGTH
    requires !AllNumeric(Join(labels))
    ensures IsValidHostname(if trailingDot then Join(labels) + "." else Join(labels))
  {
    var name := Join(labels);
    assert NoDots(labels) by {
      forall i | 0 <= i < |labels| ensures NoDot(labels[i]) {
        var l := labels[i];
        assert forall k :: 0 <= k < |l| ==> IsLdh(l[k]);
      }
    }
    SplitJoin(labels);
    var last := labels[|labels| - 1];
    LastOfJoin(labels);
    assert !EndsWithDot(name);
    if trailingDot {
      assert StripTrailingDot(name + ".") == name;
    }
  }

  /** A join ends with the last character of its last label. */
  lemma {:induction false} LastOfJoin(labels: seq<string>)
    requires |labels| >= 1 && |labels[|labels| - 1]| >= 1
    ensures var s := Join(labels); var last := labels[|labels| - 1];
      |s| >= 1 && s[|s| - 1] == last[|last| - 1]
  {
    if |labels| > 1 {
      LastOfJoin(labels[1..]);
    }
  }

  /**
   * One ill-formed label (empty, longer than 63, or with a bad character)
   * makes the whole name invalid. The name is the labels joined by dots,
   * followed by the permitted trailing dot or else ending in a non-empty label
   * (an empty last label without a trailing dot is the trailing dot itself).
   */
  lemma RejectsInvalidLabel(labels: seq<string>, i: nat, trailingDot: bool)
    requires |labels| >= 1 && NoDots(labels)
    requires trailingDot || labels[|labels| - 1] != ""
    requires i < |labels| && !IsValidLabel(labels[i])
    ensures !IsValidHostname(if trailingDot then Join(labels) + "." else Join(labels))
  {
    var name := Join(labels);
    SplitJoin(labels);
    assert !AllLabelsValid(Split(name));
    if trailingDot {
      assert StripTrailingDot(name + ".") == name;
    } else {
      LastOfJoin(labels);
      assert NoDot(labels[|labels| - 1]);
      assert StripTrailingDot(name) == name;
    }
  }

  lemma RejectsEmptyLabel(labels: seq<string>, i: nat, trailingDot: bool)
    requires |labels| >= 1 && NoDots(labels)
    requires trailingDot || labels[|labels| - 1] != ""
    requires i < |labels| && labels[i] == ""
    ensures !IsValidHostname(if trailingDot then Join(labels) + "." else Join(labels))
  {
    RejectsInvalidLabel(labels, i, trailingDot);
  }

  lemma RejectsLongLabel(labels: seq<string>, i: nat, trailingDot: bool)
    requires |labels| >= 1 && NoDots(labels)
    requires trailingDot || labels[|labels| - 1] != ""
    requires i < |labels| && |labels[i]| > MAX_LABEL_LENGTH
    ensures !IsValidHostname(if trailingDot then Join(labels) + "." else Join(labels))
  {
    RejectsInvalidLabel(labels, i, trailingDot);
  }

  /** A second trailing dot is never allowed. */
  lemma RejectsTwoTrailingDots(name: string)
    ensures !IsValidHostname(name + "..")
  {
    assert StripTrailingDot(name + "..") == name + ".";
  }

  /** One trailing dot changes nothing: `n.` is valid exactly when `n` is. */
  lemma TrailingDotIrrelevant(name: string)
    requires !EndsWithDot(name)
    ensures IsValidHostname(name + ".") <==> IsValidHostname(name)
  {
    assert StripTrailingDot(name + ".") == name;
  }
}
