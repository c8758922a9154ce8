/**
 * Choosing the graphics and present queue families (initSwapchainExtension): the
 * first family that has both is preferred; otherwise the first graphics family and
 * the first family that can present are taken separately. UINT32_MAX marks an
 * index that was not found.
 */
module QueueSelection {
  import opened Vk

  /** The family advertises VK_QUEUE_GRAPHICS_BIT. */
  predicate IsGraphics(p: QueueFamilyProperties)
  {
    HasAny(p.queueFlags, VK_QUEUE_GRAPHICS_BIT)
  }

  /** Family i can both draw and present. */
  predicate IsCombined(props: QueueFamilyTable, supportsPresent: seq<bool>, i: int)
    requires |supportsPresent| == |props|
  {
    0 <= i < |props| && IsGraphics(props[i]) && supportsPresent[i]
  }

  /** The first graphics-and-present family, or UINT32_MAX when there is none. */
  function FirstCombined(props: QueueFamilyTable, supportsPresent: seq<bool>): (r: uint32)
    requires |supportsPresent| == |props|
    ensures r == UINT32_MAX || IsCombined(props, supportsPresent, r)
    ensures forall j :: 0 <= j < |props| && j < r ==> !IsCombined(props, supportsPresent, j)
    decreases |props|
  {
    if |props| == 0 then UINT32_MAX
    else
      var k := FirstCombined(props[..|props| - 1], supportsPresent[..|props| - 1]);
      assert forall j :: 0 <= j < |props| - 1 ==>
        IsCombined(props, supportsPresent, j) == IsCombined(props[..|props| - 1], supportsPresent[..|props| - 1], j);
      if k != UINT32_MAX then k
      else if IsCombined(props, supportsPresent, |props| - 1) then |props| - 1
      else UINT32_MAX
  }

  /** The first family with the graphics bit, or UINT32_MAX. */
  function FirstGraphics(props: QueueFamilyTable): (r: uint32)
    ensures r == UINT32_MAX || (r < |props| && IsGraphics(props[r]))
    ensures forall j :: 0 <= j < |props| && j < r ==> !IsGraphics(props[j])
    decreases |props|
  {
    if |props| == 0 then UINT32_MAX
    else
      var k := FirstGraphics(props[..|props| - 1]);
      if k != UINT32_MAX then k
      else if IsGraphics(props[|props| - 1]) then |props| - 1
      else UINT32_MAX
  }

  /** Family i exists and can present to the surface. */
  predicate CanPresent(supportsPresent: seq<bool>, i: int)
  {
    0 <= i < |supportsPresent| && supportsPresent[i]
  }

  /** The first family that can present, or UINT32_MAX. */
  function FirstPresent(supportsPresent: seq<bool>): (r: uint32)
    requires |supportsPresent| < UINT32_MAX
    ensures r == UINT32_MAX || (r < |supportsPresent| && supportsPresent[r])
    ensures forall j :: 0 <= j < |supportsPresent| && j < r ==> !supportsPresent[j]
    decreases |supportsPresent|
  {
    if |supportsPresent| == 0 then UINT32_MAX
    else
      var k := FirstPresent(supportsPresent[..|supportsPresent| - 1]);
      if k != UINT32_MAX then k
      else if supportsPresent[|supportsPresent| - 1] then |supportsPresent| - 1
      else UINT32_MAX
  }

  /** The chosen pair: (graphics family, present family). */
  datatype QueueFamilies = QueueFamilies(graphics: uint32, present: uint32)

  /** The selection rule: a combined family for both, else the two separate firsts. */
  function SelectedFamilies(props: QueueFamilyTable, supportsPresent: seq<bool>): QueueFamilies
    requires |supportsPresent| == |props|
  {
    var c := FirstCombined(props, supportsPresent);
    if c != UINT32_MAX then QueueFamilies(c, c)
    else QueueFamilies(FirstGraphics(props), FirstPresent(supportsPresent))
  }

  /** Neither index is left at UINT32_MAX (the setup goes on rather than PANIC). */
  predicate Resolved(f: QueueFamilies)
  {
    f.graphics != UINT32_MAX && f.present != UINT32_MAX
  }

  /**
   * The two scans of initSwapchainExtension. The first walks the graphics
   * families, remembering the first one and stopping at the first that can also
   * present; the second, run only when no present family was found, takes the
   * first family that can present.
   */
  method FindQueueFamilies(props: QueueFamilyTable, supportsPresent: seq<bool>) returns (graphics: uint32, present: uint32)
    requires |supportsPresent| == |props|
    ensures QueueFamilies(graphics, present) == SelectedFamilies(props, supportsPresent)
  {
    graphics := UINT32_MAX;
    present := UINT32_MAX;
    var i := 0;
    while i < |props|
      invariant 0 <= i <= |props|
      invariant present == UINT32_MAX
      invariant forall j :: 0 <= j < i ==> !IsCombined(props, supportsPresent, j)
      invariant graphics == UINT32_MAX || (graphics < i && IsGraphics(props[graphics]))
      invariant forall j :: 0 <= j < i && j < graphics ==> !IsGraphics(props[j])
    {
      if IsGraphics(props[i]) {
        if graphics == UINT32_MAX {
          graphics := i;
        }
        if supportsPresent[i] {
          graphics := i;
          present := i;
          break;
        }
      }
      i := i + 1;
    }
    if present == UINT32_MAX {
      assert FirstCombined(props, supportsPresent) == UINT32_MAX;
      FirstGraphicsUnique(props, graphics);
      var j := 0;
      while j < |props|
        invariant 0 <= j <= |props|
        invariant present == UINT32_MAX || (present < j && CanPresent(supportsPresent, present))
        invariant forall m :: 0 <= m < j && m < present ==> !supportsPresent[m]
      {
        if supportsPresent[j] {
          present := j;
          break;
        }
        j := j + 1;
      }
      FirstPresentUnique(supportsPresent, present);
    } else {
      FirstCombinedUnique(props, supportsPresent, present);
    }
  }

  /** FirstCombined is the only index with its two properties. */
  lemma FirstCombinedUnique(props: QueueFamilyTable, supportsPresent: seq<bool>, c: uint32)
    requires |supportsPresent| == |props|
    requires c == UINT32_MAX || IsCombined(props, supportsPresent, c)
    requires forall j :: 0 <= j < |props| && j < c ==> !IsCombined(props, supportsPresent, j)
    ensures FirstCombined(props, supportsPresent) == c
  {
  }

  /** FirstGraphics is the only index with its two properties. */
  lemma FirstGraphicsUnique(props: QueueFamilyTable, g: uint32)
    requires g == UINT32_MAX || (g < |props| && IsGraphics(props[g]))
    requires forall j :: 0 <= j < |props| && j < g ==> !IsGraphics(props[j])
    ensures FirstGraphics(props) == g
  {
  }

  /** FirstPresent is the only index with its two properties. */
  lemma FirstPresentUnique(supportsPresent: seq<bool>, p: uint32)
    requires |supportsPresent| < UINT32_MAX
    requires p == UINT32_MAX || (p < |supportsPresent| && supportsPresent[p])
    requires forall j :: 0 <= j < |supportsPresent| && j < p ==> !supportsPresent[j]
    ensures FirstPresent(supportsPresent) == p
  {
  }

  /**
   * When some family can both draw and present, both indices are the first such
   * family.
   */
  lemma CombinedFamilyPreferred(props: QueueFamilyTable, supportsPresent: seq<bool>, i: int)
    requires |supportsPresent| == |props|
    requires IsCombined(props, supportsPresent, i)
    ensures var f := SelectedFamilies(props, supportsPresent);
      f.graphics == f.present && f.graphics <= i && IsCombined(props, supportsPresent, f.graphics) &&
      forall j :: 0 <= j < f.graphics ==> !IsCombined(props, supportsPresent, j)
  {
  }

  /**
   * Without a combined family, the graphics index is the first graphics family and
   * the present index the first family that can present; when both are found they
   * differ.
   */
  lemma SeparateFamiliesFallback(props: QueueFamilyTable, supportsPresent: seq<bool>)
    requires |supportsPresent| == |props|
    requires forall i :: 0 <= i < |props| ==> !IsCombined(props, supportsPresent, i)
    ensures var f := SelectedFamilies(props, supportsPresent);
      f.graphics == FirstGraphics(props) && f.present == FirstPresent(supportsPresent) &&
      (Resolved(f) ==> f.graphics != f.present)
  {
    var f := SelectedFamilies(props, supportsPresent);
    if Resolved(f) && f.graphics == f.present {
      assert IsCombined(props, supportsPresent, f.graphics);
    }
  }

  /** The selection leaves an index at UINT32_MAX exactly when no family draws or no family presents. */
  lemma ResolvedIffBothExist(props: QueueFamilyTable, supportsPresent: seq<bool>)
    requires |supportsPresent| == |props|
    ensures Resolved(SelectedFamilies(props, supportsPresent)) <==>
      (exists i :: 0 <= i < |props| && IsGraphics(props[i])) &&
      (exists i :: CanPresent(supportsPresent, i))
  {
    var c := FirstCombined(props, supportsPresent);
    if c != UINT32_MAX {
      assert IsGraphics(props[c]) && CanPresent(supportsPresent, c);
    } else {
      var g := FirstGraphics(props);
      var p := FirstPresent(supportsPresent);
      if g != UINT32_MAX {
        assert IsGraphics(props[g]);
      }
      if p != UINT32_MAX {
        assert CanPresent(supportsPresent, p);
      }
    }
  }

  /** FirstCombined of a prefix that contains the first combined family is that family. */
  lemma {:induction false} FirstCombinedPrefix(props: QueueFamilyTable, supportsPresent: seq<bool>, n: nat)
    requires |supportsPresent| == |props| && n <= |props|
    requires FirstCombined(props, supportsPresent) < n
    ensures FirstCombined(props[..n], supportsPresent[..n]) == FirstCombined(props, supportsPresent)
  {
    var c := FirstCombined(props, supportsPresent);
    assert IsCombined(props[..n], supportsPresent[..n], c);
    forall j | 0 <= j < c ensures !IsCombined(props[..n], supportsPresent[..n], j) {
      assert !IsCombined(props, supportsPresent, j);
    }
    FirstCombinedUnique(props[..n], supportsPresent[..n], c);
  }

  /**
   * The scan stops at the first combined family: the families after it do not
   * affect the choice.
   */
  lemma LaterFamiliesIgnored(props: QueueFamilyTable, supportsPresent: seq<bool>, n: nat)
    requires |supportsPresent| == |props| && n <= |props|
    requires FirstCombined(props, supportsPresent) < n
    ensures SelectedFamilies(props[..n], supportsPresent[..n]) == SelectedFamilies(props, supportsPresent)
  {
    FirstCombinedPrefix(props, supportsPresent, n);
  }

  /**
   * Three families: a graphics family that cannot present, a compute family that
   * can, and a graphics family that can. The third is chosen for both, although the
   * first was seen earlier.
   */
  lemma ThreeFamiliesExample()
    ensures SelectedFamilies(
      [QueueFamilyProperties(VK_QUEUE_GRAPHICS_BIT, 1), QueueFamilyProperties(VK_QUEUE_COMPUTE_BIT, 1),
       QueueFamilyProperties(VK_QUEUE_GRAPHICS_BIT | VK_QUEUE_TRANSFER_BIT, 1)],
      [false, true, true]) == QueueFamilies(2, 2)
  {
    var props := [QueueFamilyProperties(VK_QUEUE_GRAPHICS_BIT, 1), QueueFamilyProperties(VK_QUEUE_COMPUTE_BIT, 1),
       QueueFamilyProperties(VK_QUEUE_GRAPHICS_BIT | VK_QUEUE_TRANSFER_BIT, 1)];
    var sp := [false, true, true];
    assert IsCombined(props, sp, 2);
    assert !IsGraphics(props[1]);
    CombinedFamilyPreferred(props, sp, 2);
  }

  /** Without the third family, graphics and present go to different families. */
  lemma TwoFamiliesExample()
    ensures SelectedFamilies(
      [QueueFamilyProperties(VK_QUEUE_GRAPHICS_BIT, 1), QueueFamilyProperties(VK_QUEUE_COMPUTE_BIT, 1)],
      [false, true]) == QueueFamilies(0, 1)
  {
    var props := [QueueFamilyProperties(VK_QUEUE_GRAPHICS_BIT, 1), QueueFamilyProperties(VK_QUEUE_COMPUTE_BIT, 1)];
    var sp := [false, true];
    assert IsGraphics(props[0]) && !IsGraphics(props[1]);
    FirstGraphicsUnique(props, 0);
    FirstPresentUnique(sp, 1);
    SeparateFamiliesFallback(props, sp);
  }
}
