/**
 * The weather-condition icon rule of the "Get Weather" button callback
 * (src/main.rs:132-142): the integer id of the first condition entry of a
 * response selects the glyph shown in the icon label through an ordered
 * `match` whose arms are exact codes and inclusive ranges.
 */
module Icons {
  import opened Wrappers

  /** The eight glyphs the icon label can show. */
  datatype Icon = Sun | FewClouds | Umbrella | Cloud | Rain | Thunder | Snow | Fog

  /** The text written into the icon label for each glyph: one emoji followed
      by the emoji presentation selector U+FE0F. */
  function Glyph(i: Icon): string
  {
    match i
    case Sun => "\U{2600}\U{FE0F}"
    case FewClouds => "\U{1F325}\U{FE0F}"
    case Umbrella => "\U{2602}\U{FE0F}"
    case Cloud => "\U{2601}\U{FE0F}"
    case Rain => "\U{1F327}\U{FE0F}"
    case Thunder => "\U{26C8}\U{FE0F}"
    case Snow => "\U{1F328}\U{FE0F}"
    case Fog => "\U{1F32B}\U{FE0F}"
  }

  /** Distinct glyphs are distinct label texts, so the label identifies the icon. */
  lemma GlyphInjective(a: Icon, b: Icon)
    ensures Glyph(a) == Glyph(b) ==> a == b
  {
  }

  /** The icon rule as the source writes it: arms tried in order, first match
      wins, and `None` for the wildcard arm that leaves the label as it was. */
  function IconFor(id: int): Option<Icon>
  {
    if id == 800 then Some(Sun)
    else if id == 801 then Some(FewClouds)
    else if 300 <= id <= 321 then Some(Umbrella)
    else if id == 802 || id == 803 || id == 804 then Some(Cloud)
    else if 500 <= id <= 532 then Some(Rain)
    else if 200 <= id <= 232 then Some(Thunder)
    else if 600 <= id <= 622 then Some(Snow)
    else if 701 <= id <= 781 then Some(Fog)
    else None
  }

  // ---------------------------------------------------------------------
  // The same rule as data: an ordered table of arms and a first-match scan.
  // ---------------------------------------------------------------------

  /** The codes one arm accepts: a list of exact values (`802 | 803 | 804`)
      or an inclusive range (`300..=321`). */
  datatype Codes = Exactly(values: seq<int>) | Between(lo: int, hi: int)

  predicate Covers(c: Codes, id: int)
  {
    match c
    case Exactly(vs) => id in vs
    case Between(lo, hi) => lo <= id <= hi
  }

  datatype Arm = Arm(codes: Codes, icon: Icon)

  /** The arms of the `match`, in the order the source lists them. */
  const IconTable: seq<Arm> := [
    Arm(Exactly([800]), Sun),
    Arm(Exactly([801]), FewClouds),
    Arm(Between(300, 321), Umbrella),
    Arm(Exactly([802, 803, 804]), Cloud),
    Arm(Between(500, 532), Rain),
    Arm(Between(200, 232), Thunder),
    Arm(Between(600, 622), Snow),
    Arm(Between(701, 781), Fog)
  ]

  /** First-match evaluation of an ordered list of arms. The result is `None`
      exactly when no arm covers the id, and otherwise the icon of an arm that
      covers it. */
  function FirstMatch(arms: seq<Arm>, id: int): (r: Option<Icon>)
    ensures r.None? <==> forall a :: a in arms ==> !Covers(a.codes, id)
    ensures r.Some? ==> exists a :: a in arms && Covers(a.codes, id) && a.icon == r.value
  {
    if arms == [] then None
    else if Covers(arms[0].codes, id) then Some(arms[0].icon)
    else
      var r := FirstMatch(arms[1..], id);
      assert forall a :: a in arms ==> a == arms[0] || a in arms[1..];
      r
  }

  /** No id is covered by two different arms of the list. */
  ghost predicate Disjoint(arms: seq<Arm>)
  {
    forall i, j, id :: 0 <= i < j < |arms| && Covers(arms[i].codes, id) ==> !Covers(arms[j].codes, id)
  }

  /** When the arms are disjoint, first-match order does not matter: any list
      holding the same arms, in any order and with any repetition, selects
      the same icon for every id. */
  lemma ReorderedArmsAgree(arms: seq<Arm>, other: seq<Arm>, id: int)
    requires Disjoint(arms)
    requires forall a :: a in other <==> a in arms
    ensures FirstMatch(other, id) == FirstMatch(arms, id)
  {
  }

  /** The source's arms never overlap. */
  lemma IconTableDisjoint()
    ensures Disjoint(IconTable)
  {
  }

  /** The first arm that covers an id decides the icon. */
  lemma {:induction false} FirstCoveringArmDecides(arms: seq<Arm>, k: nat, id: int)
    requires k < |arms| && Covers(arms[k].codes, id)
    requires forall j :: 0 <= j < k ==> !Covers(arms[j].codes, id)
    ensures FirstMatch(arms, id) == Some(arms[k].icon)
  {
    if k > 0 {
      assert !Covers(arms[0].codes, id);
      FirstCoveringArmDecides(arms[1..], k - 1, id);
    }
  }

  /** The if-chain above and the ordered table describe the same rule. */
  lemma IconForIsFirstMatch(id: int)
    ensures IconFor(id) == FirstMatch(IconTable, id)
  {
    var t := IconTable;
    if id == 800 {
      FirstCoveringArmDecides(t, 0, id);
    } else if id == 801 {
      FirstCoveringArmDecides(t, 1, id);
    } else if 300 <= id <= 321 {
      FirstCoveringArmDecides(t, 2, id);
    } else if id == 802 || id == 803 || id == 804 {
      FirstCoveringArmDecides(t, 3, id);
    } else if 500 <= id <= 532 {
      FirstCoveringArmDecides(t, 4, id);
    } else if 200 <= id <= 232 {
      FirstCoveringArmDecides(t, 5, id);
    } else if 600 <= id <= 622 {
      FirstCoveringArmDecides(t, 6, id);
    } else if 701 <= id <= 781 {
      FirstCoveringArmDecides(t, 7, id);
    } else {
      forall a | a in t ensures !Covers(a.codes, id) {
        var k :| 0 <= k < |t| && t[k] == a;
      }
    }
  }

  /** The `match` may be read in any order: every reordering of the source's
      arms selects the icon the source selects. */
  lemma IconRuleOrderIndependent(other: seq<Arm>, id: int)
    requires multiset(other) == multiset(IconTable)
    ensures FirstMatch(other, id) == IconFor(id)
  {
    IconTableDisjoint();
    IconForIsFirstMatch(id);
    forall a ensures a in other <==> a in IconTable {
      assert a in other <==> a in multiset(other);
    }
    ReorderedArmsAgree(IconTable, other, id);
  }

  // ---------------------------------------------------------------------
  // The exact codes, the inclusive boundaries and the gaps.
  // ---------------------------------------------------------------------

  /** The exact-value arms: 800, 801 and each of 802, 803, 804. */
  lemma ExactArms(id: int)
    ensures IconFor(id) == Some(Sun) <==> id == 800
    ensures IconFor(id) == Some(FewClouds) <==> id == 801
    ensures IconFor(id) == Some(Cloud) <==> id == 802 || id == 803 || id == 804
  {
  }

  /** The range arms are inclusive at both ends and cover nothing else. */
  lemma RangeArmsInclusive(id: int)
    ensures IconFor(id) == Some(Umbrella) <==> 300 <= id <= 321
    ensures IconFor(id) == Some(Rain) <==> 500 <= id <= 532
    ensures IconFor(id) == Some(Thunder) <==> 200 <= id <= 232
    ensures IconFor(id) == Some(Snow) <==> 600 <= id <= 622
    ensures IconFor(id) == Some(Fog) <==> 701 <= id <= 781
  {
  }

  /** The ids the wildcard arm receives: everything below 200, the gaps
      between the groups, and everything above 804 (negative ids included). */
  lemma UncoveredIds(id: int)
    ensures IconFor(id) == None <==>
      id < 200 || 232 < id < 300 || 321 < id < 500 || 532 < id < 600 ||
      622 < id < 701 || 781 < id < 800 || 804 < id
  {
  }
}
