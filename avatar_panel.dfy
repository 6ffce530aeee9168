/** The avatar-profile panels of `llpanelavatar.cpp`: the interests and
    skills checkboxes packed into and out of 32-bit masks by
    LLPanelAvatarAdvanced, and three small decisions of LLPanelAvatar (when
    notes are sent, when OK is enabled, and the font style of a group row). */
module AvatarPanel {
  import opened Numeric

  // ---------------------------------------------------------------------------
  // Masks

  function Pow2(n: nat): (p: nat)
    ensures p >= 1
  {
    if n == 0 then 1 else 2 * Pow2(n - 1)
  }

  /** Bit t of a mask. */
  predicate Bit(mask: nat, t: nat) {
    if t == 0 then mask % 2 == 1 else Bit(mask / 2, t - 1)
  }

  /** Bitwise `|`, one bit at a time from the lowest. */
  function Or(a: nat, b: nat): nat {
    if a == 0 && b == 0 then 0
    else 2 * Or(a / 2, b / 2) + (if a % 2 == 1 || b % 2 == 1 then 1 else 0)
  }

  /** Bitwise `&`, one bit at a time from the lowest. */
  function And(a: nat, b: nat): nat {
    if a == 0 || b == 0 then 0
    else 2 * And(a / 2, b / 2) + (if a % 2 == 1 && b % 2 == 1 then 1 else 0)
  }

  lemma {:induction false} BitOfOr(a: nat, b: nat, t: nat)
    ensures Bit(Or(a, b), t) <==> Bit(a, t) || Bit(b, t)
  {
    if t > 0 && !(a == 0 && b == 0) {
      BitOfOr(a / 2, b / 2, t - 1);
    } else if t > 0 {
      ZeroBits(t);
    }
  }

  lemma {:induction false} BitOfAnd(a: nat, b: nat, t: nat)
    ensures Bit(And(a, b), t) <==> Bit(a, t) && Bit(b, t)
  {
    if t > 0 && a != 0 && b != 0 {
      BitOfAnd(a / 2, b / 2, t - 1);
    } else if t > 0 {
      ZeroBits(t);
      ZeroBits(t - 1);
    }
  }

  lemma {:induction false} ZeroBits(t: nat)
    ensures !Bit(0, t)
  {
    if t > 0 {
      ZeroBits(t - 1);
    }
  }

  lemma {:induction false} BitOfPow2(n: nat, t: nat)
    ensures Bit(Pow2(n), t) <==> t == n
  {
    if n > 0 && t > 0 {
      BitOfPow2(n - 1, t - 1);
    } else if t > 0 {
      ZeroBits(t - 1);
    }
  }

  /** A mask below 2^k has no bit at or above k. */
  lemma {:induction false} BitsBelow(mask: nat, k: nat, t: nat)
    requires mask < Pow2(k) && k <= t
    ensures !Bit(mask, t)
  {
    if k == 0 {
      ZeroBits(t);
    } else {
      BitsBelow(mask / 2, k - 1, t - 1);
    }
  }

  lemma {:induction false} OrBelow(a: nat, b: nat, k: nat)
    requires a < Pow2(k) && b < Pow2(k)
    ensures Or(a, b) < Pow2(k)
  {
    if k > 0 && !(a == 0 && b == 0) {
      OrBelow(a / 2, b / 2, k - 1);
    }
  }

  /** Two masks below 2^k with the same low k bits are the same mask. */
  lemma {:induction false} BitsDetermineMask(a: nat, b: nat, k: nat)
    requires a < Pow2(k) && b < Pow2(k)
    requires forall t | 0 <= t < k :: Bit(a, t) <==> Bit(b, t)
    ensures a == b
  {
    if k > 0 {
      forall t | 0 <= t < k - 1
        ensures Bit(a / 2, t) <==> Bit(b / 2, t)
      {
        assert Bit(a, t + 1) <==> Bit(b, t + 1);
      }
      BitsDetermineMask(a / 2, b / 2, k - 1);
      assert Bit(a, 0) <==> Bit(b, 0);
    }
  }

  lemma {:induction false} OrZero(a: nat)
    ensures Or(a, 0) == a
  {
    if a != 0 {
      OrZero(a / 2);
    }
  }

  /** `mask & 1 << t` is non-zero iff bit t is set. */
  lemma {:induction false} AndPow2(mask: nat, t: nat)
    ensures And(mask, Pow2(t)) != 0 <==> Bit(mask, t)
  {
    if mask == 0 {
      ZeroBits(t);
    } else if t > 0 {
      AndPow2(mask / 2, t - 1);
    }
  }

  lemma {:induction false} Pow2Grows(n: nat, k: nat)
    requires n <= k
    ensures Pow2(n) <= Pow2(k)
  {
    if n < k {
      Pow2Grows(n, k - 1);
    }
  }

  lemma {:induction false} AndBelow(a: nat, b: nat, k: nat)
    requires b < Pow2(k)
    ensures And(a, b) < Pow2(k)
  {
    if k > 0 && a != 0 && b != 0 {
      AndBelow(a / 2, b / 2, k - 1);
    }
  }

  /** `(1 << k) - 1` has exactly the bits below k. */
  lemma {:induction false} BitOfLowMask(k: nat, t: nat)
    ensures Bit(Pow2(k) - 1, t) <==> t < k
  {
    if k == 0 {
      ZeroBits(t);
    } else if t > 0 {
      BitOfLowMask(k - 1, t - 1);
    }
  }

  /** The mask with bit t set exactly for the checked boxes t: from 0,
      `mask |= 1 << t` for each checked box t in order. */
  function MaskOf(checks: seq<bool>): (mask: nat)
    ensures mask < Pow2(|checks|)
  {
    if checks == [] then 0
    else
      var n := |checks| - 1;
      var low := MaskOf(checks[..n]);
      var high := if checks[n] then Pow2(n) else 0;
      OrBelow(low, high, n + 1);
      Or(low, high)
  }

  /** Bit t of MaskOf(checks) is set iff box t exists and is checked. */
  lemma {:induction false} MaskOfBits(checks: seq<bool>)
    ensures forall t: nat :: Bit(MaskOf(checks), t) <==> t < |checks| && checks[t]
  {
    if checks == [] {
      forall t: nat ensures !Bit(0, t) {
        ZeroBits(t);
      }
    } else {
      var n := |checks| - 1;
      MaskOfBits(checks[..n]);
      var low := MaskOf(checks[..n]);
      var high := if checks[n] then Pow2(n) else 0;
      forall t: nat
        ensures Bit(Or(low, high), t) <==> t < |checks| && checks[t]
      {
        BitOfOr(low, high, t);
        if checks[n] {
          BitOfPow2(n, t);
        } else {
          ZeroBits(t);
        }
        if t < n {
          assert checks[..n][t] == checks[t];
        }
      }
    }
  }

  /** The checkbox states setWantSkills gives the first `count` boxes. */
  function ChecksOf(mask: nat, count: nat): (checks: seq<bool>)
    ensures |checks| == count
  {
    seq(count, t requires 0 <= t < count => Bit(mask, t))
  }

  /** Reading the boxes back after setWantSkills gives the mask restricted
      to its low `count` bits: the higher bits are lost. */
  lemma GetAfterSet(mask: nat, count: nat)
    ensures MaskOf(ChecksOf(mask, count)) == And(mask, Pow2(count) - 1)
  {
    var got := MaskOf(ChecksOf(mask, count));
    MaskOfBits(ChecksOf(mask, count));
    AndBelow(mask, Pow2(count) - 1, count);
    forall t | 0 <= t < count
      ensures Bit(got, t) <==> Bit(And(mask, Pow2(count) - 1), t)
    {
      BitOfAnd(mask, Pow2(count) - 1, t);
      BitOfLowMask(count, t);
    }
    BitsDetermineMask(got, And(mask, Pow2(count) - 1), count);
  }

  /** Setting the boxes from the mask getWantSkills read gives back the
      same boxes. */
  lemma SetAfterGet(checks: seq<bool>)
    ensures ChecksOf(MaskOf(checks), |checks|) == checks
  {
    MaskOfBits(checks);
  }

  lemma {:induction false} Pow2Add(a: nat, b: nat)
    ensures Pow2(a + b) == Pow2(a) * Pow2(b)
  {
    if a > 0 {
      Pow2Add(a - 1, b);
    }
  }

  /** A U32 mask holds bits 0 to 31. */
  lemma Pow2Of32()
    ensures Pow2(32) == 0x1_0000_0000
  {
    assert Pow2(2) == 4;
    Pow2Add(2, 2);
    Pow2Add(4, 4);
    Pow2Add(8, 8);
    Pow2Add(16, 16);
  }

  /** LLPanelAvatarAdvanced: the checkbox states of the "want to" and
      "skills" rows, how many of each are in use, and the line editors,
      absent until postBuild finds them. */
  class AdvancedPanel {
    var wantTo: array<bool>
    var skills: array<bool>
    var wantToCount: nat
    var skillsCount: nat
    var wantToEdit: Option<string>
    var skillsEdit: Option<string>
    var languages: string

    predicate Valid()
      reads this
    {
      && wantTo != skills
      && wantToCount <= wantTo.Length && wantToCount <= 8
      && skillsCount <= skills.Length && skillsCount <= 6
    }

    /** The constructor: no boxes in use and no line editors yet. The
        arrays have the sizes the panel's declaration gives them. */
    constructor (wantToSize: nat, skillsSize: nat)
      ensures Valid() && fresh(wantTo) && fresh(skills)
      ensures wantTo.Length == wantToSize && skills.Length == skillsSize
      ensures wantToCount == 0 && skillsCount == 0
      ensures wantToEdit.None? && skillsEdit.None? && languages == ""
    {
      wantTo := new bool[wantToSize];
      skills := new bool[skillsSize];
      wantToCount, skillsCount := 0, 0;
      wantToEdit, skillsEdit := None, None;
      languages := "";
    }

    /** postBuild: uses 8 "want to" boxes and 6 skills boxes, or fewer when
        the arrays are shorter, and finds both line editors. */
    method PostBuild(wantToText: string, skillsText: string)
      requires Valid()
      modifies this
      ensures Valid() && wantTo == old(wantTo) && skills == old(skills) && languages == old(languages)
      ensures wantToCount <= 8 && wantToCount <= wantTo.Length
      ensures wantToCount == 8 || wantToCount == wantTo.Length
      ensures skillsCount <= 6 && skillsCount <= skills.Length
      ensures skillsCount == 6 || skillsCount == skills.Length
      ensures wantToEdit == Some(wantToText) && skillsEdit == Some(skillsText)
    {
      wantToCount := if 8 > wantTo.Length then wantTo.Length else 8;
      skillsCount := if 6 > skills.Length then skills.Length else 6;
      wantToEdit := Some(wantToText);
      skillsEdit := Some(skillsText);
    }

    /** setWantSkills: box t of each row is checked iff bit t of its mask is
        set, for the boxes in use; the texts go to the line editors only
        when both exist. */
    method SetWantSkills(wantToMask: uint32, wantToText: string, skillsMask: uint32, skillsText: string, languagesText: string)
      requires Valid()
      modifies wantTo, skills, this
      ensures Valid() && wantTo == old(wantTo) && skills == old(skills)
      ensures wantToCount == old(wantToCount) && skillsCount == old(skillsCount)
      ensures wantTo[..wantToCount] == ChecksOf(wantToMask, wantToCount)
      ensures wantTo[wantToCount..] == old(wantTo[wantToCount..])
      ensures skills[..skillsCount] == ChecksOf(skillsMask, skillsCount)
      ensures skills[skillsCount..] == old(skills[skillsCount..])
      ensures if old(wantToEdit).Some? && old(skillsEdit).Some?
        then wantToEdit == Some(wantToText) && skillsEdit == Some(skillsText)
        else wantToEdit == old(wantToEdit) && skillsEdit == old(skillsEdit)
      ensures languages == languagesText
    {
      Unpack(wantTo, wantToCount, wantToMask);
      Unpack(skills, skillsCount, skillsMask);
      if wantToEdit.Some? && skillsEdit.Some? {
        wantToEdit := Some(wantToText);
        skillsEdit := Some(skillsText);
      }
      languages := languagesText;
    }

    /** getWantSkills: each mask has bit t set iff box t is in use and
        checked; a text is read from its line editor when that exists and
        otherwise is the caller's value. */
    method GetWantSkills(wantToText0: string, skillsText0: string)
      returns (wantToMask: uint32, wantToText: string, skillsMask: uint32, skillsText: string, languagesText: string)
      requires Valid()
      ensures wantToMask == MaskOf(wantTo[..wantToCount]) && skillsMask == MaskOf(skills[..skillsCount])
      ensures forall t: nat :: Bit(wantToMask, t) <==> t < wantToCount && wantTo[t]
      ensures forall t: nat :: Bit(skillsMask, t) <==> t < skillsCount && skills[t]
      ensures wantToText == (if wantToEdit.Some? then wantToEdit.value else wantToText0)
      ensures skillsText == (if skillsEdit.Some? then skillsEdit.value else skillsText0)
      ensures languagesText == languages
    {
      wantToMask := Pack(wantTo, wantToCount);
      skillsMask := Pack(skills, skillsCount);
      wantToText := if wantToEdit.Some? then wantToEdit.value else wantToText0;
      skillsText := if skillsEdit.Some? then skillsEdit.value else skillsText0;
      languagesText := languages;
    }
  }

  /** One row of setWantSkills: `set(mask & 1 << id)` on the first `count`
      boxes. */
  method Unpack(boxes: array<bool>, count: nat, mask: uint32)
    requires count <= boxes.Length
    modifies boxes
    ensures boxes[..count] == ChecksOf(mask, count)
    ensures boxes[count..] == old(boxes[count..])
  {
    for id := 0 to count
      invariant boxes[..id] == ChecksOf(mask, id)
      invariant boxes[count..] == old(boxes[count..])
    {
      AndPow2(mask, id);
      boxes[id] := And(mask, Pow2(id)) != 0;
    }
  }

  /** One row of getWantSkills: from 0, `mask |= 1 << t` for each checked
      box t among the first `count`. */
  method Pack(boxes: array<bool>, count: nat) returns (mask: uint32)
    requires count <= boxes.Length && count <= 32
    ensures mask == MaskOf(boxes[..count])
    ensures forall t: nat :: Bit(mask, t) <==> t < count && boxes[t]
  {
    Pow2Of32();
    mask := 0;
    for t := 0 to count
      invariant mask == MaskOf(boxes[..t])
    {
      assert boxes[..t + 1][..t] == boxes[..t];
      Pow2Grows(t + 1, 32);
      if boxes[t] {
        OrBelow(mask, Pow2(t), t + 1);
        mask := Or(mask, Pow2(t));
      } else {
        assert Or(mask, 0) == mask by { OrZero(mask); }
      }
    }
    MaskOfBits(boxes[..count]);
  }

  // ---------------------------------------------------------------------------
  // LLPanelAvatar

  /** sendAvatarNotesUpdate: the notes sent, if any. Nothing is sent when no
      notes came from the server and the text is empty or the "Loading"
      placeholder, nor when the text is the notes last received. */
  function NotesToSend(haveNotes: bool, notes: string, lastNotes: string, loading: string): (r: Option<string>)
  {
    if !haveNotes && (notes == "" || notes == loading) then None
    else if notes == lastNotes then None
    else Some(notes)
  }

  /** Notes are sent exactly when they differ from the last received ones
      and, before any were received, are neither empty nor the placeholder;
      what is sent is the text as edited. */
  lemma NotesToSendMeaning(haveNotes: bool, notes: string, lastNotes: string, loading: string)
    ensures NotesToSend(haveNotes, notes, lastNotes, loading).Some? <==>
      notes != lastNotes && (haveNotes || (notes != "" && notes != loading))
    ensures NotesToSend(haveNotes, notes, lastNotes, loading).Some? ==> NotesToSend(haveNotes, notes, lastNotes, loading).value == notes
    ensures NotesToSend(haveNotes, notes, notes, loading).None?
  {
  }

  /** enableOKIfReady: OK is enabled iff the properties arrived and OK is
      visible. */
  function OkEnabled(haveProperties: bool, okVisible: bool): (enabled: bool)
    ensures enabled ==> haveProperties
    ensures !okVisible ==> !enabled
    ensures haveProperties && okVisible ==> enabled
  {
    haveProperties && okVisible
  }

  /** A group of the agent's profile list: its id and whether it is shown in
      the profile. */
  datatype GroupData = GroupData(id: Uuid, listInProfile: bool)

  /** The font style of a group row: "BOLD" for a group listed in the
      profile and "NORMAL" otherwise, followed by "|ITALIC" for the agent's
      active group; "NORMAL" when the group is not among the agent's. */
  function GroupFontStyle(group: Option<GroupData>, activeGroup: Uuid): (style: string)
  {
    if group.None? then "NORMAL"
    else
      var base := if group.value.listInProfile then "BOLD" else "NORMAL";
      if group.value.id == activeGroup then base + "|ITALIC" else base
  }

  /** Reads a font style back into (bold, italic). */
  function ParseFontStyle(style: string): Option<(bool, bool)> {
    match style
    case "BOLD" => Some((true, false))
    case "NORMAL" => Some((false, false))
    case "BOLD|ITALIC" => Some((true, true))
    case "NORMAL|ITALIC" => Some((false, true))
    case _ => None
  }

  /** The style records exactly whether the group is listed (bold) and
      whether it is the active group (italic). */
  lemma GroupFontStyleRoundTrip(group: Option<GroupData>, activeGroup: Uuid)
    ensures group.Some? ==>
      ParseFontStyle(GroupFontStyle(group, activeGroup)) == Some((group.value.listInProfile, group.value.id == activeGroup))
    ensures group.None? ==> ParseFontStyle(GroupFontStyle(group, activeGroup)) == Some((false, false))
  {
    if group.Some? {
      var base := if group.value.listInProfile then "BOLD" else "NORMAL";
      assert base + "|ITALIC" == (if group.value.listInProfile then "BOLD|ITALIC" else "NORMAL|ITALIC");
    }
  }
}
