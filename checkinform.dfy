/**
 * The check-in form of src/CheckInForm.js: lodash `trim`, Euclid's `gcd`,
 * the `addEntry` acceptance rules and the 30-slot session built by `go`.
 */
module CheckIn {
  import opened Wrappers
  import opened Entries
  import Random
  import Numbers
  import Game

  /** The number of slots in a session, and the most entries the form holds. */
  const SlotCount: nat := 30
  const MaxNameLength: nat := 30
  const TooManyEntries: string := "Too many entries."

  // ---------------------------------------------------------------- trim

  /**
   * The characters JavaScript's `\s` matches, which lodash `trim` strips:
   * tab through carriage return, space, no-break space, ogham space mark,
   * the spaces U+2000..U+200A, the line and paragraph separators, the
   * narrow and medium mathematical spaces, the ideographic space and the
   * byte order mark.
   */
  predicate IsWhitespace(c: char)
  {
    var k := c as int;
    (9 <= k <= 13) || k == 0x20 || k == 0xA0 || k == 0x1680 || (0x2000 <= k <= 0x200A)
    || k == 0x2028 || k == 0x2029 || k == 0x202F || k == 0x205F || k == 0x3000 || k == 0xFEFF
  }

  /** The first index at or after `i` that is not whitespace (`|s|` if there is none). */
  function SkipLeading(s: string, i: nat): (k: nat)
    requires i <= |s|
    ensures i <= k <= |s| && (k == |s| || !IsWhitespace(s[k]))
    decreases |s| - i
  {
    if i < |s| && IsWhitespace(s[i]) then SkipLeading(s, i + 1) else i
  }

  /** Everything `SkipLeading` passes over is whitespace. */
  lemma {:induction false} SkipLeadingPassesWhitespace(s: string, i: nat)
    requires i <= |s|
    ensures forall j :: i <= j < SkipLeading(s, i) ==> IsWhitespace(s[j])
    decreases |s| - i
  {
    if i < |s| && IsWhitespace(s[i]) {
      SkipLeadingPassesWhitespace(s, i + 1);
    }
  }

  /** The end of `s[lo..hi]` once its trailing whitespace is dropped. */
  function SkipTrailing(s: string, lo: nat, hi: nat): (k: nat)
    requires lo <= hi <= |s|
    ensures lo <= k <= hi && (k == lo || !IsWhitespace(s[k - 1]))
    decreases hi
  {
    if lo < hi && IsWhitespace(s[hi - 1]) then SkipTrailing(s, lo, hi - 1) else hi
  }

  /** Everything `SkipTrailing` drops is whitespace. */
  lemma {:induction false} SkipTrailingPassesWhitespace(s: string, lo: nat, hi: nat)
    requires lo <= hi <= |s|
    ensures forall j :: SkipTrailing(s, lo, hi) <= j < hi ==> IsWhitespace(s[j])
    decreases hi
  {
    if lo < hi && IsWhitespace(s[hi - 1]) {
      SkipTrailingPassesWhitespace(s, lo, hi - 1);
    }
  }

  /** No whitespace at either end. */
  predicate Trimmed(s: string)
  {
    s == [] || (!IsWhitespace(s[0]) && !IsWhitespace(s[|s| - 1]))
  }

  /**
   * lodash `trim`: the slice between the first non-whitespace character and
   * one past the last one.
   */
  function Trim(s: string): (r: string)
    ensures |r| <= |s|
    ensures Trimmed(r)
  {
    var start := SkipLeading(s, 0);
    s[start..SkipTrailing(s, start, |s|)]
  }

  /**
   * `trim` drops whitespace only: `s` is whitespace, then the trimmed
   * string, then whitespace.
   */
  lemma TrimDropsOnlyWhitespace(s: string)
    ensures SkipLeading(s, 0) + |Trim(s)| <= |s|
    ensures Trim(s) == s[SkipLeading(s, 0)..SkipLeading(s, 0) + |Trim(s)|]
    ensures forall i :: 0 <= i < SkipLeading(s, 0) ==> IsWhitespace(s[i])
    ensures forall i :: SkipLeading(s, 0) + |Trim(s)| <= i < |s| ==> IsWhitespace(s[i])
  {
    var start := SkipLeading(s, 0);
    SkipLeadingPassesWhitespace(s, 0);
    SkipTrailingPassesWhitespace(s, start, |s|);
  }

  /** A name trims to nothing exactly when it is all whitespace. */
  lemma TrimBlank(s: string)
    ensures Trim(s) == [] <==> forall i :: 0 <= i < |s| ==> IsWhitespace(s[i])
  {
    TrimDropsOnlyWhitespace(s);
    var start := SkipLeading(s, 0);
    if Trim(s) != [] {
      assert 0 <= start < |s| && !IsWhitespace(s[start]);
    }
  }

  /** A string without whitespace at either end is left as it is. */
  lemma TrimKeeps(s: string)
    requires Trimmed(s)
    ensures Trim(s) == s
  {
    assert SkipLeading(s, 0) == 0;
    assert SkipTrailing(s, 0, |s|) == |s|;
  }

  lemma TrimIdempotent(s: string)
    ensures Trim(Trim(s)) == Trim(s)
  {
    TrimKeeps(Trim(s));
  }

  // ---------------------------------------------------------------- gcd

  function Mul(d: int, k: int): int
  {
    d * k
  }

  /** `d` divides `x`: some integer multiple of `d` is `x`. */
  ghost predicate Divides(d: nat, x: nat)
  {
    exists k: int :: Mul(d, k) == x
  }

  /** If `d` divides `b` and `a % b`, it divides `a`. */
  lemma DividesFromRemainder(d: nat, a: nat, b: nat)
    requires b > 0 && Divides(d, b) && Divides(d, a % b)
    ensures Divides(d, a)
  {
    var s :| Mul(d, s) == b;
    var t :| Mul(d, t) == a % b;
    var q := a / b;
    assert a == b * q + a % b;
    assert a == Mul(d, s * q + t) by {
      calc {
        a;
        b * q + a % b;
        d * s * q + d * t;
        d * (s * q + t);
      }
    }
  }

  /** If `d` divides `a` and `b`, it divides `a % b`. */
  lemma DividesRemainder(d: nat, a: nat, b: nat)
    requires b > 0 && Divides(d, a) && Divides(d, b)
    ensures Divides(d, a % b)
  {
    var s :| Mul(d, s) == a;
    var t :| Mul(d, t) == b;
    var q := a / b;
    assert a % b == Mul(d, s - t * q) by {
      calc {
        a % b;
        a - b * q;
        d * s - d * t * q;
        d * (s - t * q);
      }
    }
  }

  /** Euclid's algorithm as `gcd` writes it (`!b` is `b == 0` for lengths). */
  function Gcd(a: nat, b: nat): (r: nat)
    decreases b
    ensures Divides(r, a) && Divides(r, b)
  {
    if b == 0 then
      assert Mul(a, 1) == a && Mul(a, 0) == 0;
      a
    else
      var r := Gcd(b, a % b);
      DividesFromRemainder(r, a, b);
      r
  }

  lemma GcdZero(a: nat)
    ensures Gcd(a, 0) == a
  {
  }

  /** Every common divisor divides the result, so it is the greatest. */
  lemma {:induction false} GcdGreatest(d: nat, a: nat, b: nat)
    requires Divides(d, a) && Divides(d, b)
    ensures Divides(d, Gcd(a, b))
    decreases b
  {
    if b > 0 {
      DividesRemainder(d, a, b);
      GcdGreatest(d, b, a % b);
    }
  }

  // ---------------------------------------------------------------- go

  /** How many `i` in [0, m) have `i % n == j`. */
  function Occurrences(m: nat, n: nat, j: nat): nat
    requires n > 0
  {
    if m == 0 then 0 else Occurrences(m - 1, n, j) + (if (m - 1) % n == j then 1 else 0)
  }

  lemma MulBetween(d: int, n: int)
    requires n > 0 && -n < d * n < n
    ensures d == 0
  {
  }

  /** Euclidean division has one quotient and one remainder. */
  lemma ModUnique(x: int, n: int, q: int, r: int)
    requires n > 0 && 0 <= r < n && x == q * n + r
    ensures x % n == r
  {
    var q', r' := x / n, x % n;
    assert (q - q') * n == r' - r;
    MulBetween(q - q', n);
  }

  lemma {:induction false} OccurrencesPartial(k: nat, n: nat, j: nat, r: nat)
    requires n > 0 && j < n && r <= n
    ensures Occurrences(k * n + r, n, j) == k + (if j < r then 1 else 0)
    decreases k, r
  {
    if r == 0 {
      if k > 0 {
        assert k * n == (k - 1) * n + n;
        OccurrencesPartial(k - 1, n, j, n);
      }
    } else {
      OccurrencesPartial(k, n, j, r - 1);
      ModUnique(k * n + (r - 1), n, k, r - 1);
    }
  }

  /** With `n` dividing 30, round-robin gives every entry exactly 30/n slots. */
  lemma RoundRobinShare(n: nat, j: nat)
    requires 0 < n && SlotCount % n == 0 && j < n
    ensures Occurrences(SlotCount, n, j) == SlotCount / n
  {
    assert SlotCount == (SlotCount / n) * n + 0;
    OccurrencesPartial(SlotCount / n, n, j, 0);
  }

  /**
   * The slot construction of `go`. When the number of entries divides 30,
   * slot `i` is a fresh copy of entry `i % n`, weight included; otherwise
   * 30 weighted draws (without weights) are shuffled. `drawn` is the draw
   * order before shuffling.
   */
  method DrawSlots(entries: seq<Entry>) returns (slots: seq<Entry>, ghost drawn: seq<Entry>)
    requires 1 <= |entries| && forall e :: e in entries ==> Pickable(e)
    ensures |slots| == SlotCount && Distinct(slots)
    ensures SlotCount % |entries| == 0 ==> forall i :: 0 <= i < SlotCount ==>
      slots[i].id == entries[i % |entries|].id && slots[i].weight == entries[i % |entries|].weight
    ensures SlotCount % |entries| != 0 ==>
      multiset(slots) == multiset(drawn) &&
      forall i :: 0 <= i < SlotCount ==> slots[i].id in IdSet(entries) && slots[i].weight == None
  {
    if SlotCount % |entries| == 0 {
      slots := RoundRobinSlots(entries);
      drawn := [];
    } else {
      slots, drawn := ShuffledDraws(entries);
    }
  }

  /** Slot `i` is a fresh copy of entry `i % n`, weight included. */
  method RoundRobinSlots(entries: seq<Entry>) returns (slots: seq<Entry>)
    requires 1 <= |entries|
    ensures |slots| == SlotCount && Distinct(slots)
    ensures forall i :: 0 <= i < SlotCount ==>
      slots[i].id == entries[i % |entries|].id && slots[i].weight == entries[i % |entries|].weight
  {
    var n := |entries|;
    slots := [];
    var i := 0;
    while i < SlotCount
      invariant 0 <= i <= SlotCount && |slots| == i && Distinct(slots)
      invariant forall j :: 0 <= j < i ==>
        slots[j].id == entries[j % n].id && slots[j].weight == entries[j % n].weight
    {
      var source := entries[i % n];
      var copy := new Entry(source.id, source.weight);
      slots := slots + [copy];
      i := i + 1;
    }
  }

  /** 30 fresh entries drawn by weight, without weights, then shuffled. */
  method ShuffledDraws(entries: seq<Entry>) returns (slots: seq<Entry>, ghost drawn: seq<Entry>)
    requires 1 <= |entries| && forall e :: e in entries ==> Pickable(e)
    ensures |slots| == SlotCount && Distinct(slots)
    ensures multiset(slots) == multiset(drawn)
    ensures forall i :: 0 <= i < SlotCount ==> slots[i].id in IdSet(entries) && slots[i].weight == None
  {
    var picked: seq<Entry> := [];
    var i := 0;
    while i < SlotCount
      invariant 0 <= i <= SlotCount && |picked| == i && Distinct(picked)
      invariant forall j :: 0 <= j < i ==> picked[j].id in IdSet(entries) && picked[j].weight == None
    {
      assert Pickable(entries[0]) by { assert entries[0] in entries; }
      var id := WeightedChoice(entries);
      var e := new Entry(id, None);
      picked := picked + [e];
      i := i + 1;
    }
    drawn := picked;
    slots := Random.Shuffle(picked);
    DistinctPermutation(picked, slots);
    forall i | 0 <= i < SlotCount
      ensures slots[i].id in IdSet(entries) && slots[i].weight == None
    {
      assert slots[i] in multiset(picked);
    }
  }

  // ---------------------------------------------------------------- the form

  /**
   * JavaScript's `.length`: the number of UTF-16 code units, two for every
   * character outside the Basic Multilingual Plane.
   */
  function Utf16Length(s: string): (n: nat)
    ensures |s| <= n <= 2 * |s|
    ensures n == |s| <==> forall i :: 0 <= i < |s| ==> s[i] as int < 0x10000
  {
    if s == [] then 0
    else (if s[0] as int < 0x10000 then 1 else 2) + Utf16Length(s[1..])
  }

  /** Code units add up over concatenation. */
  lemma {:induction false} Utf16LengthAppend(a: string, b: string)
    ensures Utf16Length(a + b) == Utf16Length(a) + Utf16Length(b)
  {
    if a != [] {
      assert (a + b)[0] == a[0];
      assert (a + b)[1..] == a[1..] + b;
      Utf16LengthAppend(a[1..], b);
    } else {
      assert a + b == b;
    }
  }

  /** A character outside the Basic Multilingual Plane counts twice. */
  lemma {:induction false} Utf16LengthAstral(c: char, k: nat)
    requires c as int >= 0x10000
    ensures Utf16Length(seq(k, _ => c)) == 2 * k
  {
    if k > 0 {
      assert seq(k, _ => c)[1..] == seq(k - 1, _ => c);
      Utf16LengthAstral(c, k - 1);
    }
  }

  /** Twenty emoji are forty code units: too long for `addEntry`. */
  lemma TwentyEmojiTooLong()
    ensures Utf16Length(seq(20, _ => '\U{1F600}')) > MaxNameLength
  {
    Utf16LengthAstral('\U{1F600}', 20);
  }

  /** An entry `addEntry` accepts: a trimmed, non-empty name of at most 30 code units, weight 1. */
  predicate Accepted(e: Entry)
  {
    e.weight == Some(1) && 1 <= |e.id| && Utf16Length(e.id) <= MaxNameLength && Trimmed(e.id)
  }

  lemma AcceptedAppend(es: seq<Entry>, e: Entry)
    requires (forall x :: x in es ==> Accepted(x)) && Accepted(e)
    ensures forall x :: x in es + [e] ==> Accepted(x)
  {
  }

  class Form {
    var visible: bool
    var error: Option<string>
    var entries: seq<Entry>

    /** What `addEntry` guarantees about the list it builds. */
    ghost predicate Valid()
      reads this
    {
      |entries| <= SlotCount && forall e :: e in entries ==> Accepted(e)
    }

    constructor ()
      ensures Valid() && visible && error == None && entries == []
    {
      visible := true;
      error := None;
      entries := [];
    }

    /**
     * `addEntry` on the two text fields: a full list is refused with an
     * error; otherwise a trimmed, non-empty name whose `.length` (UTF-16
     * code units) is at most 30 is appended with weight 1. The weight field is trimmed and then never read, so it has
     * no effect.
     */
    method AddEntry(nameField: string, weightField: string) returns (added: bool)
      requires Valid()
      modifies this`entries, this`error
      ensures Valid()
      ensures old(|entries|) == SlotCount ==> !added && error == Some(TooManyEntries)
      ensures old(|entries|) < SlotCount ==> error == old(error)
      ensures added <==> old(|entries|) < SlotCount && 1 <= |Trim(nameField)| && Utf16Length(Trim(nameField)) <= MaxNameLength
      ensures !added ==> entries == old(entries)
      ensures added ==>
        && |entries| == old(|entries|) + 1 && entries[..old(|entries|)] == old(entries)
        && entries[old(|entries|)].id == Trim(nameField) && entries[old(|entries|)].weight == Some(1)
    {
      if |entries| == SlotCount {
        error := Some(TooManyEntries);
        added := false;
      } else {
        added := AppendName(nameField);
      }
    }

    /** The accepting half of `addEntry`, on a list with room left. */
    method AppendName(nameField: string) returns (added: bool)
      requires Valid() && |entries| < SlotCount
      modifies this`entries
      ensures Valid()
      ensures added <==> 1 <= |Trim(nameField)| && Utf16Length(Trim(nameField)) <= MaxNameLength
      ensures !added ==> entries == old(entries)
      ensures added ==>
        && |entries| == old(|entries|) + 1 && entries[..old(|entries|)] == old(entries)
        && entries[old(|entries|)].id == Trim(nameField) && entries[old(|entries|)].weight == Some(1)
    {
      var name := Trim(nameField);
      added := 1 <= |name| && Utf16Length(name) <= MaxNameLength;
      if added {
        var e := new Entry(name, Some(1));
        AcceptedAppend(entries, e);
        entries := entries + [e];
      }
    }

    /**
     * `go`, from the Go button, which is shown only with at least two
     * entries: hide the form and hand the 30 slots to the game. The form's
     * `onSubmit` never fires, since the form has no submit button and
     * holds two fields. The model also accepts a single entry, which fills
     * all 30 slots.
     */
    method Go(app: Game.Application) returns (slots: seq<Entry>)
      requires Valid() && 1 <= |entries| && app.Valid()
      modifies this`visible, app
      ensures !visible && |slots| == SlotCount && Distinct(slots)
      ensures forall i :: 0 <= i < SlotCount ==> slots[i].id in IdSet(entries)
      ensures SlotCount % |entries| == 0 ==> forall i :: 0 <= i < SlotCount ==>
        slots[i].id == entries[i % |entries|].id && slots[i].weight == entries[i % |entries|].weight
      ensures SlotCount % |entries| != 0 ==> forall i :: 0 <= i < SlotCount ==> slots[i].weight == None
      ensures app.Valid()
      ensures old(app.standBy) ==> !app.standBy && app.entries == slots
      ensures !old(app.standBy) ==> app.entries == old(app.entries)
      ensures !old(app.standBy) ==> unchanged(app)
      ensures old(app.standBy) ==> app.players == map id | id in IdSet(app.entries) :: Numbers.Finite(0.0)
      ensures old(app.standBy) ==> unchanged(app`playing, app`total, app`lightsMode, app`polarCoord,
        app`barGlowOffset, app`currentWinner, app`currentRotation, app`wheelAngle, app`bars,
        app`barIntensity, app`diskTime, app`disk, app`pendingTimers)
    {
      var _ := Gcd(|entries|, SlotCount);
      ghost var drawn;
      slots, drawn := DrawSlots(entries);
      if SlotCount % |entries| == 0 {
        forall i | 0 <= i < SlotCount
          ensures slots[i].id in IdSet(entries)
        {
          assert entries[i % |entries|] in entries;
        }
      }
      visible := false;
      app.InitGame(Some(slots));
    }

    /** `test`, the demo link: hide the form and start with no entries. */
    method Test(app: Game.Application)
      requires app.Valid()
      modifies this`visible, app
      ensures !visible && app.Valid()
      ensures old(app.standBy) ==> !app.standBy && multiset(app.entries) == multiset(app.defaults)
      ensures !old(app.standBy) ==> unchanged(app)
      ensures old(app.standBy) ==> app.players == map id | id in IdSet(app.entries) :: Numbers.Finite(0.0)
      ensures old(app.standBy) ==> unchanged(app`playing, app`total, app`lightsMode, app`polarCoord,
        app`barGlowOffset, app`currentWinner, app`currentRotation, app`wheelAngle, app`bars,
        app`barIntensity, app`diskTime, app`disk, app`pendingTimers)
    {
      visible := false;
      app.InitGame(None);
    }
  }
}
