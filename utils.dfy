/**
 * The textual form of a queue-family capability mask (GetQueueFlagString): the
 * names of the set capability bits, in a fixed order, separated by '|'.
 */
module Utils {
  import opened Vk

  /** The union of the five named queue bits. */
  const KNOWN_QUEUE_BITS: Flags := 0x1F

  /** The separator placed between two names. */
  const SEPARATOR: char := '|'

  /** The five queue capability names, in the order in which they are reported. */
  const QUEUE_FLAG_ORDER: seq<string> := ["GRAPHICS", "COMPUTE", "TRANSFER", "SPARSE_BINDING", "PROTECTED"]

  /** `[name]` when `bit` is set in `flag`, otherwise nothing. */
  function NameIfSet(flag: Flags, bit: Flags, name: string): seq<string>
  {
    if HasAny(flag, bit) then [name] else []
  }

  /** The names GetQueueFlagString collects for `flag`, one per set queue bit. */
  function QueueFlagNames(flag: Flags): seq<string>
  {
    NameIfSet(flag, VK_QUEUE_GRAPHICS_BIT, "GRAPHICS") +
    NameIfSet(flag, VK_QUEUE_COMPUTE_BIT, "COMPUTE") +
    NameIfSet(flag, VK_QUEUE_TRANSFER_BIT, "TRANSFER") +
    NameIfSet(flag, VK_QUEUE_SPARSE_BINDING_BIT, "SPARSE_BINDING") +
    NameIfSet(flag, VK_QUEUE_PROTECTED_BIT, "PROTECTED")
  }

  /** The names with one separator between consecutive names. */
  function Join(names: seq<string>): string
    decreases |names|
  {
    if |names| == 0 then ""
    else if |names| == 1 then names[0]
    else Join(names[..|names| - 1]) + [SEPARATOR] + names[|names| - 1]
  }

  /** Every name followed by a separator (the text built before the last name is added). */
  function Terminated(names: seq<string>): string
    decreases |names|
  {
    if names == [] then "" else Terminated(names[..|names| - 1]) + names[|names| - 1] + [SEPARATOR]
  }

  /** The number of occurrences of `c` in `s`. */
  function Occurrences(s: string, c: char): nat
    decreases |s|
  {
    if s == [] then 0 else (if s[0] == c then 1 else 0) + Occurrences(s[1..], c)
  }

  /** No two entries of `s` are equal. */
  predicate Distinct(s: seq<string>)
  {
    forall i, j :: 0 <= i < j < |s| ==> s[i] != s[j]
  }

  /** Every name is non-empty and holds no separator. */
  predicate PlainNames(names: seq<string>)
  {
    forall i :: 0 <= i < |names| ==> names[i] != [] && SEPARATOR !in names[i]
  }

  /** Every name is one of the five queue capability names. */
  predicate QueueNamesOnly(names: seq<string>)
  {
    forall i :: 0 <= i < |names| ==> names[i] in QUEUE_FLAG_ORDER
  }

  /**
   * GetQueueFlagString: collects the name of each set queue bit, then joins the
   * collected names with '|' in an index loop.
   */
  method GetQueueFlagString(flag: Flags) returns (flagString: string)
    ensures flagString == Join(QueueFlagNames(flag))
  {
    var flagStrings: seq<string> := [];
    ghost var expected := NameIfSet(flag, VK_QUEUE_GRAPHICS_BIT, "GRAPHICS");
    if HasAny(flag, VK_QUEUE_GRAPHICS_BIT) {
      flagStrings := flagStrings + ["GRAPHICS"];
    }
    assert flagStrings == expected;
    expected := expected + NameIfSet(flag, VK_QUEUE_COMPUTE_BIT, "COMPUTE");
    if HasAny(flag, VK_QUEUE_COMPUTE_BIT) {
      flagStrings := flagStrings + ["COMPUTE"];
    }
    assert flagStrings == expected;
    expected := expected + NameIfSet(flag, VK_QUEUE_TRANSFER_BIT, "TRANSFER");
    if HasAny(flag, VK_QUEUE_TRANSFER_BIT) {
      flagStrings := flagStrings + ["TRANSFER"];
    }
    assert flagStrings == expected;
    expected := expected + NameIfSet(flag, VK_QUEUE_SPARSE_BINDING_BIT, "SPARSE_BINDING");
    if HasAny(flag, VK_QUEUE_SPARSE_BINDING_BIT) {
      flagStrings := flagStrings + ["SPARSE_BINDING"];
    }
    assert flagStrings == expected;
    expected := expected + NameIfSet(flag, VK_QUEUE_PROTECTED_BIT, "PROTECTED");
    if HasAny(flag, VK_QUEUE_PROTECTED_BIT) {
      flagStrings := flagStrings + ["PROTECTED"];
    }
    assert flagStrings == expected == QueueFlagNames(flag);
    flagString := JoinNames(flagStrings);
  }

  /** The join loop of GetQueueFlagString: appends each name and, except after the last, a separator. */
  method JoinNames(flagStrings: seq<string>) returns (flagString: string)
    ensures flagString == Join(flagStrings)
  {
    flagString := "";
    var i := 0;
    while i < |flagStrings|
      invariant 0 <= i <= |flagStrings|
      invariant i < |flagStrings| ==> flagString == Terminated(flagStrings[..i])
      invariant i == |flagStrings| ==> flagString == Join(flagStrings)
    {
      ghost var before := flagString;
      flagString := flagString + flagStrings[i];
      if i != |flagStrings| - 1 {
        assert flagStrings[..i + 1][..i] == flagStrings[..i];
        assert Terminated(flagStrings[..i + 1]) == before + flagStrings[i] + [SEPARATOR];
        flagString := flagString + [SEPARATOR];
      } else {
        JoinIsTerminatedPlusLast(flagStrings);
        assert flagStrings[..i] == flagStrings[..|flagStrings| - 1];
      }
      i := i + 1;
    }
  }

  /** Joining adds a separator after each name except the last. */
  lemma {:induction false} JoinIsTerminatedPlusLast(names: seq<string>)
    requires names != []
    ensures Join(names) == Terminated(names[..|names| - 1]) + names[|names| - 1]
    decreases |names|
  {
    var init := names[..|names| - 1];
    if |init| > 0 {
      JoinIsTerminatedPlusLast(init);
      assert init[..|init| - 1] == names[..|names| - 2];
    }
  }

  /** Each of the five names is reported exactly when its bit is set in the flag. */
  lemma QueueFlagNameReported(flag: Flags)
    ensures "GRAPHICS" in QueueFlagNames(flag) <==> HasAny(flag, VK_QUEUE_GRAPHICS_BIT)
    ensures "COMPUTE" in QueueFlagNames(flag) <==> HasAny(flag, VK_QUEUE_COMPUTE_BIT)
    ensures "TRANSFER" in QueueFlagNames(flag) <==> HasAny(flag, VK_QUEUE_TRANSFER_BIT)
    ensures "SPARSE_BINDING" in QueueFlagNames(flag) <==> HasAny(flag, VK_QUEUE_SPARSE_BINDING_BIT)
    ensures "PROTECTED" in QueueFlagNames(flag) <==> HasAny(flag, VK_QUEUE_PROTECTED_BIT)
    ensures QueueNamesOnly(QueueFlagNames(flag))
  {
  }

  /** Appending names that are not yet present keeps a list free of repeats. */
  lemma DistinctAppend(xs: seq<string>, ys: seq<string>)
    requires Distinct(xs) && |ys| <= 1
    requires forall y :: y in ys ==> y !in xs
    ensures Distinct(xs + ys)
  {
    if |ys| == 1 {
      forall i, j | 0 <= i < j < |xs + ys| ensures (xs + ys)[i] != (xs + ys)[j] {
        if j == |xs| {
          assert (xs + ys)[j] == ys[0];
          assert (xs + ys)[i] == xs[i];
          assert xs[i] in xs;
          assert ys[0] in ys;
        }
      }
    } else {
      assert xs + ys == xs;
    }
  }

  /** Each queue name appears at most once. */
  lemma QueueFlagNamesDistinct(flag: Flags)
    ensures Distinct(QueueFlagNames(flag))
  {
    var p1 := NameIfSet(flag, VK_QUEUE_GRAPHICS_BIT, "GRAPHICS");
    var p2 := p1 + NameIfSet(flag, VK_QUEUE_COMPUTE_BIT, "COMPUTE");
    var p3 := p2 + NameIfSet(flag, VK_QUEUE_TRANSFER_BIT, "TRANSFER");
    var p4 := p3 + NameIfSet(flag, VK_QUEUE_SPARSE_BINDING_BIT, "SPARSE_BINDING");
    assert forall x :: x in p2 ==> x in ["GRAPHICS", "COMPUTE"];
    assert forall x :: x in p3 ==> x in ["GRAPHICS", "COMPUTE", "TRANSFER"];
    assert forall x :: x in p4 ==> x in ["GRAPHICS", "COMPUTE", "TRANSFER", "SPARSE_BINDING"];
    DistinctAppend(p1, NameIfSet(flag, VK_QUEUE_COMPUTE_BIT, "COMPUTE"));
    DistinctAppend(p2, NameIfSet(flag, VK_QUEUE_TRANSFER_BIT, "TRANSFER"));
    DistinctAppend(p3, NameIfSet(flag, VK_QUEUE_SPARSE_BINDING_BIT, "SPARSE_BINDING"));
    DistinctAppend(p4, NameIfSet(flag, VK_QUEUE_PROTECTED_BIT, "PROTECTED"));
  }

  /** Masking to the named bits leaves each named bit's test unchanged. */
  lemma KnownQueueBits(flag: Flags)
    ensures HasAny(flag & KNOWN_QUEUE_BITS, VK_QUEUE_GRAPHICS_BIT) == HasAny(flag, VK_QUEUE_GRAPHICS_BIT)
    ensures HasAny(flag & KNOWN_QUEUE_BITS, VK_QUEUE_COMPUTE_BIT) == HasAny(flag, VK_QUEUE_COMPUTE_BIT)
    ensures HasAny(flag & KNOWN_QUEUE_BITS, VK_QUEUE_TRANSFER_BIT) == HasAny(flag, VK_QUEUE_TRANSFER_BIT)
    ensures HasAny(flag & KNOWN_QUEUE_BITS, VK_QUEUE_SPARSE_BINDING_BIT) == HasAny(flag, VK_QUEUE_SPARSE_BINDING_BIT)
    ensures HasAny(flag & KNOWN_QUEUE_BITS, VK_QUEUE_PROTECTED_BIT) == HasAny(flag, VK_QUEUE_PROTECTED_BIT)
    ensures flag & KNOWN_QUEUE_BITS == 0 <==>
      !HasAny(flag, VK_QUEUE_GRAPHICS_BIT) && !HasAny(flag, VK_QUEUE_COMPUTE_BIT) &&
      !HasAny(flag, VK_QUEUE_TRANSFER_BIT) && !HasAny(flag, VK_QUEUE_SPARSE_BINDING_BIT) &&
      !HasAny(flag, VK_QUEUE_PROTECTED_BIT)
  {
  }

  /** Bits outside the five named queue bits do not change the names. */
  lemma QueueFlagNamesIgnoreUnknownBits(flag: Flags)
    ensures QueueFlagNames(flag) == QueueFlagNames(flag & KNOWN_QUEUE_BITS)
  {
    KnownQueueBits(flag);
  }

  /** The reported names are non-empty and hold no separator. */
  lemma QueueFlagNamesPlain(flag: Flags)
    ensures PlainNames(QueueFlagNames(flag))
  {
    QueueFlagNameReported(flag);
    var names := QueueFlagNames(flag);
    forall i | 0 <= i < |names| ensures names[i] != [] && SEPARATOR !in names[i] {
      assert names[i] in QUEUE_FLAG_ORDER;
    }
  }

  /** Joining non-empty names starts with the first name's first character and ends with the last name's last character. */
  lemma {:induction false} JoinNonEmpty(names: seq<string>)
    requires names != [] && PlainNames(names)
    ensures |Join(names)| > 0
    ensures Join(names)[0] == names[0][0]
    ensures Join(names)[|Join(names)| - 1] == names[|names| - 1][|names[|names| - 1]| - 1]
    decreases |names|
  {
    if |names| > 1 {
      var init := names[..|names| - 1];
      JoinNonEmpty(init);
    }
  }

  /** The string is empty exactly when none of the five named bits is set. */
  lemma QueueFlagStringEmpty(flag: Flags)
    ensures Join(QueueFlagNames(flag)) == "" <==> flag & KNOWN_QUEUE_BITS == 0
  {
    KnownQueueBits(flag);
    QueueFlagNamesPlain(flag);
    var names := QueueFlagNames(flag);
    if names != [] {
      JoinNonEmpty(names);
    }
  }

  /** Counting occurrences distributes over concatenation. */
  lemma {:induction false} OccurrencesConcat(a: string, b: string, c: char)
    ensures Occurrences(a + b, c) == Occurrences(a, c) + Occurrences(b, c)
    decreases |a|
  {
    if a == [] {
      assert a + b == b;
    } else {
      assert (a + b)[0] == a[0];
      assert (a + b)[1..] == a[1..] + b;
      OccurrencesConcat(a[1..], b, c);
    }
  }

  /** A string without `c` has no occurrence of it. */
  lemma {:induction false} OccurrencesAbsent(s: string, c: char)
    requires c !in s
    ensures Occurrences(s, c) == 0
    decreases |s|
  {
    if s != [] {
      OccurrencesAbsent(s[1..], c);
    }
  }

  /** Joining n plain names puts exactly n - 1 separators into the text. */
  lemma {:induction false} JoinSeparatorCount(names: seq<string>)
    requires names != [] && PlainNames(names)
    ensures Occurrences(Join(names), SEPARATOR) == |names| - 1
    decreases |names|
  {
    var last := names[|names| - 1];
    OccurrencesAbsent(last, SEPARATOR);
    if |names| > 1 {
      var init := names[..|names| - 1];
      JoinSeparatorCount(init);
      OccurrencesConcat(Join(init) + [SEPARATOR], last, SEPARATOR);
      OccurrencesConcat(Join(init), [SEPARATOR], SEPARATOR);
    }
  }

  /**
   * The queue flag string has one '|' fewer than it has names, and neither starts
   * nor ends with '|'.
   */
  lemma QueueFlagStringSeparators(flag: Flags)
    requires QueueFlagNames(flag) != []
    ensures Occurrences(Join(QueueFlagNames(flag)), SEPARATOR) == |QueueFlagNames(flag)| - 1
    ensures |Join(QueueFlagNames(flag))| > 0
    ensures Join(QueueFlagNames(flag))[0] != SEPARATOR
    ensures Join(QueueFlagNames(flag))[|Join(QueueFlagNames(flag))| - 1] != SEPARATOR
  {
    var names := QueueFlagNames(flag);
    QueueFlagNamesPlain(flag);
    JoinSeparatorCount(names);
    JoinNonEmpty(names);
    assert names[0][0] in names[0];
    var last := names[|names| - 1];
    assert last[|last| - 1] in last;
  }
}
