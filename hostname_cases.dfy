/** The hostname cases of the test suite, each proved of the model. */
module HostnameCases {
  import opened Text
  import opened Hostname

  /** A label of 63 `a`s: the longest a label may be. */
  function LongestLabel(): (l: string)
    ensures |l| == MAX_LABEL_LENGTH && IsValidLabel(l)
  {
    seq(63, _ => 'a')
  }

  /** `"a" * 63 + ".example.com."` is valid: one trailing dot and a 63-character label are allowed. */
  lemma OneTrailingDotAccepted()
    ensures IsValidHostname(LongestLabel() + ".example.com.")
  {
    var labels := [LongestLabel(), "example", "com"];
    assert IsValidLabel("example") && IsValidLabel("com");
    assert Join(labels) == LongestLabel() + ".example.com";
    assert Join(labels)[0] == 'a';
    ValidFromLabels(labels, true);
    assert Join(labels) + "." == LongestLabel() + ".example.com.";
  }

  /** `"example.com.."` is invalid: only one trailing dot may be stripped. */
  lemma TwoTrailingDotsRejected()
    ensures !IsValidHostname("example.com..")
  {
    RejectsTwoTrailingDots("example.com");
    assert "example.com" + ".." == "example.com..";
  }

  /** Twenty-six labels `a123456789` joined by dots: 285 characters of well-formed labels. */
  function OverlongName(): (name: string)
    ensures |name| == 285
    ensures Split(name) == seq(26, _ => "a123456789") && AllLabelsValid(Split(name))
  {
    var labels := seq(26, _ => "a123456789");
    UniformJoinLength(labels);
    assert IsValidLabel("a123456789");
    SplitJoin(labels);
    Join(labels)
  }

  /** The join of `n` copies of one label has `n` labels' worth of characters and `n - 1` dots. */
  lemma {:induction false} UniformJoinLength(labels: seq<string>)
    requires |labels| >= 1
    requires forall i :: 0 <= i < |labels| ==> labels[i] == labels[0]
    ensures |Join(labels)| == |labels| * |labels[0]| + |labels| - 1
  {
    if |labels| > 1 {
      UniformJoinLength(labels[1..]);
    }
  }

  /** The overlong name is invalid although every label in it is well formed. */
  lemma TooLongRejected()
    ensures !IsValidHostname(OverlongName())
  {
    var name := OverlongName();
    assert name[|name| - 1] == '9' by {
      LastOfJoin(seq(26, _ => "a123456789"));
    }
  }

  /** `"127.0.0.1"` splits into four labels. */
  lemma NumericNameSplit()
    ensures Split("127.0.0.1") == ["127", "0", "0", "1"]
  {
    var labels := ["127", "0", "0", "1"];
    assert JoinWith(".", ["1"]) == "1";
    assert JoinWith(".", ["0", "1"]) == "0.1";
    assert JoinWith(".", ["0", "0", "1"]) == "0.0.1";
    assert Join(labels) == "127.0.0.1";
    SplitJoin(labels);
  }

  /** `"127.0.0.1"` is invalid: every label is well formed, but the name is all digits. */
  lemma AllNumericRejected()
    ensures AllLabelsValid(Split("127.0.0.1"))
    ensures !IsValidHostname("127.0.0.1")
  {
    NumericNameSplit();
    NumericLabelsValid();
    assert AllNumeric("127.0.0.1");
  }

  /** Only a name made entirely of digits and dots is numeric: a letter anywhere keeps `a.1` valid. */
  lemma MixedNumericAccepted()
    ensures !AllNumeric("a.1") && IsValidHostname("a.1")
  {
    var labels := ["a", "1"];
    assert JoinWith(".", ["1"]) == "1";
    assert Join(labels) == "a.1";
    SplitJoin(labels);
    assert IsValidLabel("a") && IsValidLabel("1");
    assert !IsDigit("a.1"[0]);
  }

  lemma NumericLabelsValid()
    ensures AllLabelsValid(["127", "0", "0", "1"])
  {
    assert IsValidLabel("127") && IsValidLabel("0") && IsValidLabel("1");
  }

  /** A label of 64 `a`s, one more than a label may hold. */
  function TooLongLabel(): (l: string)
    ensures |l| == MAX_LABEL_LENGTH + 1 && !IsValidLabel(l)
  {
    seq(64, _ => 'a')
  }

  /** `"a" * 64 + ".example.com"` is invalid: one label over 63 characters. */
  lemma LabelTooLongRejected()
    ensures !IsValidHostname(TooLongLabel() + ".example.com")
  {
    var labels := [TooLongLabel(), "example", "com"];
    assert Join(labels) == TooLongLabel() + ".example.com";
    RejectsLongLabel(labels, 0, false);
  }

  /** `"-bad.example.com"`: a label may not start with a hyphen. */
  lemma LeadingHyphenRejected()
    ensures !IsValidHostname("-bad.example.com")
  {
    var labels := ["-bad", "example", "com"];
    assert Join(labels) == "-bad.example.com";
    RejectsInvalidLabel(labels, 0, false);
  }

  /** `"bad-.example.com"`: a label may not end with a hyphen. */
  lemma TrailingHyphenRejected()
    ensures !IsValidHostname("bad-.example.com")
  {
    var labels := ["bad-", "example", "com"];
    assert Join(labels) == "bad-.example.com";
    RejectsInvalidLabel(labels, 0, false);
  }

  /** `"greater>than.example.com"`: `>` is not a letter, digit or hyphen. */
  lemma IllegalCharRejected()
    ensures !IsValidHostname("greater>than.example.com")
  {
    var labels := ["greater>than", "example", "com"];
    assert Join(labels) == "greater>than.example.com";
    assert !IsLdh(labels[0][7]);
    RejectsInvalidLabel(labels, 0, false);
  }

  // ---------------------------------------------------------------------------
  // The test inputs, built the way the tests build them: a loop appends one
  // element at a time, then the pieces are joined.

  /** Appends `x` to an empty list `n` times. */
  method Repeat<T>(x: T, n: nat) returns (items: seq<T>)
    ensures |items| == n
    ensures forall i :: 0 <= i < n ==> items[i] == x
  {
    items := [];
    var i := 0;
    while i < n
      invariant i <= n && |items| == i
      invariant forall k :: 0 <= k < i ==> items[k] == x
    {
      items := items + [x];
      i := i + 1;
    }
  }

  /** `"{0}.example.com.".format("".join(chars))` with 63 `a`s. */
  method OneTrailingDotHostname() returns (hostname: string)
    ensures hostname == LongestLabel() + ".example.com."
    ensures IsValidHostname(hostname)
  {
    var chars := Repeat('a', 63);
    hostname := chars + ".example.com.";
    OneTrailingDotAccepted();
  }

  /** `"{0}.example.com".format("".join(chars))` with 64 `a`s. */
  method LabelTooLongHostname() returns (hostname: string)
    ensures hostname == TooLongLabel() + ".example.com"
    ensures !IsValidHostname(hostname)
  {
    var chars := Repeat('a', 64);
    hostname := chars + ".example.com";
    LabelTooLongRejected();
  }

  /** `".".join(labels)` with 26 labels `a123456789`. */
  method OverlongHostname() returns (hostname: string)
    ensures hostname == OverlongName()
    ensures !IsValidHostname(hostname)
  {
    var labels := Repeat("a123456789", 26);
    assert labels == seq(26, _ => "a123456789");
    hostname := Join(labels);
    TooLongRejected();
  }
}
