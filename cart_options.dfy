/** `standardizeOptions` (`cartRoutes.js`): the selected options of a cart item
    rebuilt with their keys in ascending order, so that the JSON text stored
    in the cart table does not depend on the order the client listed them in.
    An options object is its list of key/value entries in insertion order. */
module CartOptions {
  import opened Base

  type Entry = (string, string)

  /** JavaScript's default string order, compared character by character (code points here); a proper prefix comes first. */
  function Less(a: string, b: string): bool {
    if a == [] then b != []
    else if b == [] then false
    else if a[0] != b[0] then a[0] < b[0]
    else Less(a[1..], b[1..])
  }

  lemma {:induction false} LessIrreflexive(a: string)
    ensures !Less(a, a)
  {
    if a != [] {
      LessIrreflexive(a[1..]);
    }
  }

  lemma {:induction false} LessTransitive(a: string, b: string, c: string)
    requires Less(a, b) && Less(b, c)
    ensures Less(a, c)
  {
    if a != [] && b != [] && c != [] && a[0] == b[0] && b[0] == c[0] {
      LessTransitive(a[1..], b[1..], c[1..]);
    }
  }

  lemma {:induction false} LessTotal(a: string, b: string)
    requires a != b
    ensures Less(a, b) || Less(b, a)
  {
    if a != [] && b != [] && a[0] == b[0] {
      assert a == [a[0]] + a[1..] && b == [b[0]] + b[1..];
      LessTotal(a[1..], b[1..]);
    }
  }

  /** Keys strictly ascending (hence distinct). */
  predicate KeysAscending(s: seq<Entry>) {
    forall i, j :: 0 <= i < j < |s| ==> Less(s[i].0, s[j].0)
  }

  /** What a JavaScript object guarantees: no key occurs twice. */
  predicate KeysUnique(s: seq<Entry>) {
    forall i, j :: 0 <= i < j < |s| ==> s[i].0 != s[j].0
  }

  lemma AscendingUnique(s: seq<Entry>)
    requires KeysAscending(s)
    ensures KeysUnique(s)
  {
    forall i, j | 0 <= i < j < |s| ensures s[i].0 != s[j].0 {
      if s[i].0 == s[j].0 {
        LessIrreflexive(s[i].0);
      }
    }
  }

  /** Places `e` in front of the first larger key of an ascending list that does not hold `e`'s key. */
  function InsertEntry(e: Entry, s: seq<Entry>): (r: seq<Entry>)
    requires KeysAscending(s)
    requires forall i :: 0 <= i < |s| ==> s[i].0 != e.0
    ensures KeysAscending(r)
    ensures |r| == |s| + 1
    ensures forall x :: x in r <==> x == e || x in s
  {
    if s == [] then [e]
    else if Less(e.0, s[0].0) then
      forall j | 0 <= j < |s| ensures Less(e.0, s[j].0) {
        if j > 0 {
          LessTransitive(e.0, s[0].0, s[j].0);
        }
      }
      [e] + s
    else
      LessTotal(e.0, s[0].0);
      var rest := InsertEntry(e, s[1..]);
      assert forall x :: x in s[1..] ==> x in s;
      forall j | 0 <= j < |rest| ensures Less(s[0].0, rest[j].0) {
        if rest[j] != e {
          assert rest[j] in rest;
          var k :| 0 <= k < |s[1..]| && s[1..][k] == rest[j];
          assert s[k + 1] == rest[j];
        }
      }
      assert forall x :: x in s ==> x == s[0] || x in s[1..];
      [s[0]] + rest
  }

  /** `standardizeOptions`: `None` stands for `null`, `undefined` or a non-object
      value, all of which give the empty object; otherwise the same entries,
      keys in ascending order. */
  function StandardizeOptions(options: Option<seq<Entry>>): (r: seq<Entry>)
    requires options.Some? ==> KeysUnique(options.value)
    ensures options.None? ==> r == []
    ensures KeysAscending(r)
    ensures options.Some? ==> |r| == |options.value| && forall x :: x in r <==> x in options.value
  {
    match options
    case None => []
    case Some(s) => SortEntries(s)
  }

  function SortEntries(s: seq<Entry>): (r: seq<Entry>)
    requires KeysUnique(s)
    ensures KeysAscending(r)
    ensures |r| == |s| && forall x :: x in r <==> x in s
  {
    if s == [] then []
    else
      var rest := SortEntries(s[1..]);
      forall i | 0 <= i < |rest| ensures rest[i].0 != s[0].0 {
        assert rest[i] in rest;
        var k :| 0 <= k < |s[1..]| && s[1..][k] == rest[i];
        assert s[k + 1] == rest[i];
      }
      assert forall x :: x in s ==> x == s[0] || x in s[1..];
      InsertEntry(s[0], rest)
  }

  /** Two lists with ascending keys and the same entries are the same list. */
  lemma {:induction false} AscendingUniqueness(a: seq<Entry>, b: seq<Entry>)
    requires KeysAscending(a) && KeysAscending(b)
    requires forall x :: x in a <==> x in b
    ensures a == b
  {
    assert (a != [] ==> a[0] in a) && (b != [] ==> b[0] in b);
    if a != [] && b != [] {
      assert a[0] in b && b[0] in a;
      var i :| 0 <= i < |b| && b[i] == a[0];
      var j :| 0 <= j < |a| && a[j] == b[0];
      if i > 0 && j > 0 {
        LessTransitive(a[0].0, a[j].0, b[i].0);
        LessIrreflexive(a[0].0);
      }
      assert a[0] == b[0] by {
        if i > 0 { LessIrreflexive(b[0].0); }
      }
      forall x ensures x in a[1..] <==> x in b[1..] {
        if x in a[1..] {
          var k :| 0 <= k < |a[1..]| && a[1..][k] == x;
          assert a[k + 1] == x && Less(a[0].0, x.0);
          LessIrreflexive(a[0].0);
          assert x in b;
        }
        if x in b[1..] {
          var k :| 0 <= k < |b[1..]| && b[1..][k] == x;
          assert b[k + 1] == x && Less(b[0].0, x.0);
          LessIrreflexive(b[0].0);
          assert x in a;
        }
      }
      AscendingUniqueness(a[1..], b[1..]);
      assert a == [a[0]] + a[1..] && b == [b[0]] + b[1..];
    }
  }

  /** Two option objects with the same entries, listed in any order, are standardised
      to the same list, so they serialise to the same JSON text. */
  lemma StandardizeCanonical(a: seq<Entry>, b: seq<Entry>)
    requires KeysUnique(a) && KeysUnique(b)
    requires forall x :: x in a <==> x in b
    ensures StandardizeOptions(Some(a)) == StandardizeOptions(Some(b))
  {
    AscendingUniqueness(StandardizeOptions(Some(a)), StandardizeOptions(Some(b)));
  }

  /** Standardising a standardised object changes nothing. */
  lemma StandardizeIdempotent(options: Option<seq<Entry>>)
    requires options.Some? ==> KeysUnique(options.value)
    ensures var once := StandardizeOptions(options);
      KeysUnique(once) && StandardizeOptions(Some(once)) == once
  {
    var once := StandardizeOptions(options);
    AscendingUnique(once);
    AscendingUniqueness(StandardizeOptions(Some(once)), once);
  }
}
