/**
  The keybind table: five stratagem slots, five support slots and the two toggle binds,
  all sharing one namespace of tokens; the conflict check (hellmacro.py:879-890); and what a
  press does while a slot is being captured (hellmacro.py:1140-1180, 1236-1273).
*/
module Keybinds {
  import opened Base
  import opened Scan
  import opened Tokens
  import Catalog

  const StratagemSlotCount: nat := 5
  const SupportSlotCount: nat := 5
  /** Stratagem slots, support slots, Railgun, Arc Thrower. */
  const SlotCount: nat := 12

  /** A bindable target: the tagged form of the source's `active_keybind`. */
  datatype SlotRef = Stratagem(index: nat) | Support(index: nat) | Railgun | ArcThrower

  predicate ValidSlot(s: SlotRef) {
    match s
    case Stratagem(i) => i < StratagemSlotCount
    case Support(i) => i < SupportSlotCount
    case _ => true
  }

  /** The k-th slot in the order the conflict check visits them; every k past the end is Arc Thrower. */
  function SlotAt(k: nat): (s: SlotRef)
    ensures ValidSlot(s)
  {
    if k < 5 then Stratagem(k)
    else if k < 10 then Support(k - 5)
    else if k == 10 then Railgun
    else ArcThrower
  }

  /** The position of a slot in that order. */
  function Rank(s: SlotRef): (k: nat)
    ensures ValidSlot(s) ==> k < SlotCount && SlotAt(k) == s
  {
    match s
    case Stratagem(i) => i
    case Support(i) => 5 + i
    case Railgun => 10
    case ArcThrower => 11
  }

  /** `keybind_vars`, `support_keybind_vars`, `railgun_keybind`, `arc_thrower_keybind`; "" is unbound. */
  datatype BindTable = BindTable(keybinds: seq<string>, support: seq<string>, railgun: string, arcThrower: string)

  predicate WellFormed(t: BindTable) {
    |t.keybinds| == StratagemSlotCount && |t.support| == SupportSlotCount
  }

  const EmptyTable: BindTable := BindTable(["", "", "", "", ""], ["", "", "", "", ""], "", "")

  function Binding(t: BindTable, s: SlotRef): string
    requires WellFormed(t) && ValidSlot(s)
  {
    match s
    case Stratagem(i) => t.keybinds[i]
    case Support(i) => t.support[i]
    case Railgun => t.railgun
    case ArcThrower => t.arcThrower
  }

  /** The table with one slot bound to `token` (clearing is assigning ""). */
  function Assign(t: BindTable, s: SlotRef, token: string): (r: BindTable)
    requires WellFormed(t) && ValidSlot(s)
    ensures WellFormed(r)
    ensures Binding(r, s) == token
    ensures forall o :: ValidSlot(o) && o != s ==> Binding(r, o) == Binding(t, o)
  {
    match s
    case Stratagem(i) => t.(keybinds := t.keybinds[i := token])
    case Support(i) => t.(support := t.support[i := token])
    case Railgun => t.(railgun := token)
    case ArcThrower => t.(arcThrower := token)
  }

  /** No two distinct slots hold the same non-empty token. */
  ghost predicate Unique(t: BindTable)
    requires WellFormed(t)
  {
    forall s, o :: ValidSlot(s) && ValidSlot(o) && s != o && Binding(t, s) != "" ==> Binding(t, s) != Binding(t, o)
  }

  /** Slot `s` is another owner of `token` while `target` is being captured. */
  predicate Owns(t: BindTable, token: string, target: SlotRef, s: SlotRef)
    requires WellFormed(t) && ValidSlot(s)
  {
    s != target && Binding(t, s) == token
  }

  /**
    The owner a conflict is reported against: the first slot, in the order stratagem slots,
    support slots, Railgun, Arc Thrower, that holds `token` and is not the slot being captured.
  */
  function FirstOwner(t: BindTable, token: string, target: SlotRef): (r: Option<SlotRef>)
    requires WellFormed(t)
    ensures r.Some? ==> ValidSlot(r.value) && Owns(t, token, target, r.value)
    ensures r.Some? ==> forall s :: ValidSlot(s) && Rank(s) < Rank(r.value) ==> !Owns(t, token, target, s)
    ensures r.None? <==> forall s :: ValidSlot(s) ==> !Owns(t, token, target, s)
  {
    var owns := (j: nat) => Owns(t, token, target, SlotAt(j));
    var k := FirstFrom(owns, 0, SlotCount);
    assert forall s :: ValidSlot(s) && Rank(s) < k ==> !Owns(t, token, target, s) by {
      forall s | ValidSlot(s) && Rank(s) < k
        ensures !Owns(t, token, target, s)
      {
        assert !owns(Rank(s));
        assert SlotAt(Rank(s)) == s;
      }
    }
    if k < SlotCount then Some(SlotAt(k)) else None
  }

  /** A slot whose rank is the first owning one is the reported owner. */
  lemma FirstOwnerAt(t: BindTable, token: string, target: SlotRef, k: nat)
    requires WellFormed(t) && k < SlotCount
    requires Owns(t, token, target, SlotAt(k))
    requires forall j :: 0 <= j < k ==> !Owns(t, token, target, SlotAt(j))
    ensures FirstOwner(t, token, target) == Some(SlotAt(k))
  {
    var r := FirstOwner(t, token, target);
    assert r.Some?;
    var s := r.value;
    assert Rank(SlotAt(k)) == k;
    assert SlotAt(Rank(s)) == s;
    assert Rank(s) == k;
  }

  /** The source's encoding of `active_keybind`: an int for slots, a string for the toggles. */
  datatype PyKeybind = PyInt(n: int) | PyStr(tag: string)

  /** What `set_keybind`, `set_support_keybind` and the two toggle setters store (hellmacro.py:840-865). */
  function Encode(s: SlotRef): (r: PyKeybind)
    ensures r.PyInt? <==> s.Stratagem? || s.Support?
    ensures ValidSlot(s) && r.PyInt? ==> 0 <= r.n < StratagemSlotCount + SupportSlotCount
    ensures ValidSlot(s) && r.PyInt? ==> (r.n < StratagemSlotCount <==> s.Stratagem?)
  {
    match s
    case Stratagem(i) => PyInt(i)
    case Support(i) => PyInt(i + StratagemSlotCount)
    case Railgun => PyStr("railgun")
    case ArcThrower => PyStr("arc_thrower")
  }

  /**
    The `isinstance` chain that installs a captured token (hellmacro.py:1163-1179): an int below 5
    is a stratagem slot, any other int a support slot, then the two tags. Values outside what
    `Encode` produces (negative ints, ints past the support list) are `None`.
  */
  function Decode(p: PyKeybind): (r: Option<SlotRef>)
    ensures r.Some? ==> ValidSlot(r.value) && Encode(r.value) == p
    ensures p.PyInt? ==> (r.Some? <==> 0 <= p.n < StratagemSlotCount + SupportSlotCount)
    ensures p.PyStr? ==> (r.Some? <==> p.tag in ["railgun", "arc_thrower"])
  {
    match p
    case PyInt(n) =>
      if n < StratagemSlotCount as int then (if n >= 0 then Some(Stratagem(n)) else None)
      else if n - StratagemSlotCount < SupportSlotCount as int then Some(Support(n - StratagemSlotCount))
      else None
    case PyStr(tag) =>
      if tag == "railgun" then Some(Railgun)
      else if tag == "arc_thrower" then Some(ArcThrower)
      else None
  }

  /** The int/string encoding loses nothing: distinct slots are stored as distinct values. */
  lemma DecodeEncode(s: SlotRef)
    requires ValidSlot(s)
    ensures Decode(Encode(s)) == Some(s)
    ensures forall o :: ValidSlot(o) && Encode(o) == Encode(s) ==> o == s
  {
    forall o | ValidSlot(o) && Encode(o) == Encode(s)
      ensures o == s
    {
      assert Decode(Encode(o)) == Some(o);
    }
  }

  /**
    `check_keybind_conflict(key_str, active_keybind)`: the same scans as the source, comparing
    slot positions against the encoded exclusion value as Python does.
  */
  method CheckKeybindConflict(t: BindTable, token: string, target: SlotRef) returns (owner: Option<SlotRef>)
    requires WellFormed(t) && ValidSlot(target)
    ensures owner == FirstOwner(t, token, target)
  {
    var exclude := Encode(target);
    DecodeEncode(target);
    for i := 0 to |t.keybinds|
      invariant forall j :: 0 <= j < i ==> !Owns(t, token, target, SlotAt(j))
    {
      if PyInt(i) != exclude && t.keybinds[i] == token && i < StratagemSlotCount {
        FirstOwnerAt(t, token, target, i);
        return Some(Stratagem(i));
      }
      assert Encode(Stratagem(i)) == PyInt(i);
    }
    for i := 0 to |t.support|
      invariant forall j :: 0 <= j < StratagemSlotCount + i ==> !Owns(t, token, target, SlotAt(j))
    {
      if PyInt(i + StratagemSlotCount) != exclude && t.support[i] == token {
        FirstOwnerAt(t, token, target, StratagemSlotCount + i);
        return Some(Support(i));
      }
      assert Encode(Support(i)) == PyInt(i + StratagemSlotCount);
    }
    if exclude != PyStr("railgun") && t.railgun == token {
      FirstOwnerAt(t, token, target, 10);
      return Some(Railgun);
    }
    if exclude != PyStr("arc_thrower") && t.arcThrower == token {
      FirstOwnerAt(t, token, target, 11);
      return Some(ArcThrower);
    }
    assert forall j :: 0 <= j < SlotCount ==> !Owns(t, token, target, SlotAt(j));
    return None;
  }

  /** The name a conflict warning gives the owner (hellmacro.py:882-889). */
  function OwnerName(s: SlotRef): (r: string)
    requires ValidSlot(s)
    ensures s.Stratagem? <==> |r| == 11 && r[..10] == "Stratagem "
    ensures s.Stratagem? ==> r[10] as int - '0' as int == s.index + 1
  {
    match s
    case Stratagem(i) => "Stratagem " + [('1' as int + i) as char]
    case Support(i) =>
      assert "Eagle Rearm"[..10][0] == 'E';
      Catalog.SupportNames[i]
    case Railgun => "Railgun/Epoch Safety"
    case ArcThrower => "Arc Thrower Rapidfire"
  }

  /** A conflict warning always names the one slot that holds the token. */
  lemma OwnerNamesDistinct(s: SlotRef, o: SlotRef)
    requires ValidSlot(s) && ValidSlot(o) && s != o
    ensures OwnerName(s) != OwnerName(o)
  {
    var a, b := OwnerName(s), OwnerName(o);
    if s.Stratagem? && o.Stratagem? {
      assert a[10] != b[10];
    } else if s.Stratagem? || o.Stratagem? {
      assert a[1] != b[1];
    } else {
      assert |a| != |b| || a[0] != b[0];
    }
  }

  /** How a press during capture ends. */
  datatype CaptureOutcome = ReservedKey | Conflict(owner: SlotRef) | Installed

  datatype Captured = Captured(table: BindTable, outcome: CaptureOutcome) {
    /** Only a refused reserved key leaves `active_keybind` set. */
    predicate StillCapturing() { outcome == ReservedKey }
  }

  /**
    A press of `token` while `target` is being captured. Keyboard tokens "esc", "enter" and "tab"
    are refused; the mouse path has no such check.
  */
  function Capture(t: BindTable, target: SlotRef, token: string, fromKeyboard: bool): (c: Captured)
    requires WellFormed(t) && ValidSlot(target)
    ensures WellFormed(c.table)
    ensures c.outcome == ReservedKey <==> fromKeyboard && IsReservedKey(token)
    ensures c.outcome.Conflict? ==> FirstOwner(t, token, target) == Some(c.outcome.owner)
    ensures c.outcome.Conflict? ==> ValidSlot(c.outcome.owner) && Owns(t, token, target, c.outcome.owner)
    ensures c.outcome == Installed <==>
              !(fromKeyboard && IsReservedKey(token)) && forall s :: ValidSlot(s) ==> !Owns(t, token, target, s)
    ensures c.outcome != Installed ==> c.table == t
    ensures c.outcome == Installed ==> Binding(c.table, target) == token
    ensures c.outcome == Installed ==> forall s :: ValidSlot(s) && s != target ==> Binding(c.table, s) == Binding(t, s)
  {
    if fromKeyboard && IsReservedKey(token) then Captured(t, ReservedKey)
    else
      match FirstOwner(t, token, target)
      case Some(owner) => Captured(t, Conflict(owner))
      case None => Captured(Assign(t, target, token), Installed)
  }

  /** Binding a token that no other slot holds keeps the table free of duplicates. */
  lemma AssignFreshPreservesUnique(t: BindTable, target: SlotRef, token: string)
    requires WellFormed(t) && ValidSlot(target) && Unique(t)
    requires forall s :: ValidSlot(s) ==> !Owns(t, token, target, s)
    ensures Unique(Assign(t, target, token))
  {
    var r := Assign(t, target, token);
    forall s, o | ValidSlot(s) && ValidSlot(o) && s != o && Binding(r, s) != ""
      ensures Binding(r, s) != Binding(r, o)
    {
      if s == target {
        assert !Owns(t, token, target, o);
      } else if o == target {
        assert !Owns(t, token, target, s);
      }
    }
  }

  /** Clearing a slot (the Clear buttons, hellmacro.py:849-877) keeps the table free of duplicates. */
  lemma ClearPreservesUnique(t: BindTable, slot: SlotRef)
    requires WellFormed(t) && ValidSlot(slot) && Unique(t)
    ensures Unique(Assign(t, slot, ""))
  {
    var r := Assign(t, slot, "");
    forall s, o | ValidSlot(s) && ValidSlot(o) && s != o && Binding(r, s) != ""
      ensures Binding(r, s) != Binding(r, o)
    {
      if o == slot {
        assert Binding(r, o) == "";
      } else {
        assert Binding(r, s) == Binding(t, s) && Binding(r, o) == Binding(t, o);
      }
    }
  }

  /** Every capture outcome keeps the table free of duplicates. */
  lemma CapturePreservesUnique(t: BindTable, target: SlotRef, token: string, fromKeyboard: bool)
    requires WellFormed(t) && ValidSlot(target) && Unique(t)
    ensures Unique(Capture(t, target, token, fromKeyboard).table)
  {
    if Capture(t, target, token, fromKeyboard).outcome == Installed {
      AssignFreshPreservesUnique(t, target, token);
    }
  }

  /** Re-capturing a slot with the token it already holds is not a conflict. */
  lemma RebindOwnTokenIsNoConflict(t: BindTable, target: SlotRef)
    requires WellFormed(t) && ValidSlot(target) && Unique(t) && Binding(t, target) != ""
    ensures FirstOwner(t, Binding(t, target), target) == None
  {
    forall s | ValidSlot(s)
      ensures !Owns(t, Binding(t, target), target, s)
    {
      if s != target {
        assert Binding(t, target) != Binding(t, s);
      }
    }
  }

  /** One edit of the table through the capture or clear paths. */
  datatype BindEdit = CapturePress(target: SlotRef, token: string, fromKeyboard: bool) | ClearSlot(slot: SlotRef)

  predicate ValidEdit(e: BindEdit) {
    match e
    case CapturePress(target, _, _) => ValidSlot(target)
    case ClearSlot(slot) => ValidSlot(slot)
  }

  function ApplyEdit(t: BindTable, e: BindEdit): (r: BindTable)
    requires WellFormed(t) && ValidEdit(e)
    ensures WellFormed(r)
  {
    match e
    case CapturePress(target, token, fromKeyboard) => Capture(t, target, token, fromKeyboard).table
    case ClearSlot(slot) => Assign(t, slot, "")
  }

  function ApplyEdits(t: BindTable, edits: seq<BindEdit>): (r: BindTable)
    requires WellFormed(t) && forall i :: 0 <= i < |edits| ==> ValidEdit(edits[i])
    ensures WellFormed(r)
    decreases |edits|
  {
    if edits == [] then t else ApplyEdits(ApplyEdit(t, edits[0]), edits[1..])
  }

  /** After any run of captures and clears, no two distinct slots hold the same token. */
  lemma {:induction false} EditsPreserveUnique(t: BindTable, edits: seq<BindEdit>)
    requires WellFormed(t) && Unique(t)
    requires forall i :: 0 <= i < |edits| ==> ValidEdit(edits[i])
    ensures Unique(ApplyEdits(t, edits))
    decreases |edits|
  {
    if edits != [] {
      match edits[0] {
        case CapturePress(target, token, fromKeyboard) => CapturePreservesUnique(t, target, token, fromKeyboard);
        case ClearSlot(slot) => ClearPreservesUnique(t, slot);
      }
      EditsPreserveUnique(ApplyEdit(t, edits[0]), edits[1..]);
    }
  }
}
