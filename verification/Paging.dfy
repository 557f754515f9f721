/** Reading a table page by page: 500 matching rows after a cursor at a time, in id order
    (internal/store/store.go, the page loops of Rotate and Reindex). */
module Paging {
  import opened Strings
  import opened Envelope
  import opened Tables
  import opened Vault

  /** Id x comes later: among the ids of a page from i on, or past all of them. */
  ghost predicate StillAhead(ids: seq<string>, i: nat, x: string)
  {
    (exists j :: i <= j < |ids| && ids[j] == x) || (ids != [] && forall j :: 0 <= j < |ids| ==> Less(ids[j], x))
  }

  /** The ids of a page in the order of its rows. */
  ghost predicate PageOf(page: seq<PageRow>, ids: seq<string>, t: Tables, matching: set<string>, cursor: string)
  {
    && |page| == |ids| && IsAscending(ids)
    && (forall j :: 0 <= j < |ids| ==>
      ids[j] in matching && ids[j] in t.objects && Less(cursor, ids[j]) && page[j] == RowCopy(t, ids[j]))
    && (forall x :: x in matching && Less(cursor, x) ==> StillAhead(ids, 0, x))
  }

  lemma ReadPageIsPage(t: Tables, matching: set<string>, cursor: string)
    requires matching <= t.objects.Keys
    ensures PageOf(ReadPage(t, matching, cursor), Page(matching, cursor, PAGE_ROWS), t, matching, cursor)
  {
    var ids := Page(matching, cursor, PAGE_ROWS);
    PageIsPrefix(matching, cursor, PAGE_ROWS);
    assert forall j :: 0 <= j < |ids| ==> ids[j] in ids;
    forall x | x in matching && Less(cursor, x) ensures StillAhead(ids, 0, x) {
      if x !in ids { assert |ids| == PAGE_ROWS; }
    }
  }

  /** No match lies between the cursor and the next id. */
  ghost predicate NextIn(matching: set<string>, last: string, next: string)
  {
    next in matching && Less(last, next) && forall x :: x in matching && Less(last, x) && !Less(next, x) ==> x == next
  }

  /** Up to the next id means up to the cursor, and the next id, and ids that do not match. */
  lemma UpToNext(matching: set<string>, last: string, next: string)
    requires NextIn(matching, last, next)
    ensures forall id :: !Less(next, id) ==> !Less(last, id) || id == next || id !in matching
    ensures forall id :: !Less(last, id) ==> !Less(next, id)
    ensures !Less(next, next)
  {
    LessIrreflexive(next);
    forall id | !Less(last, id) ensures !Less(next, id) {
      if Less(next, id) { LessTransitive(last, next, id); }
    }
  }

  /** The part of a page from row i on: rows of t0 past the cursor, none left out. */
  ghost predicate PagePart(t0: Tables, matching: set<string>, last: string, page: seq<PageRow>, ids: seq<string>,
      i: nat)
  {
    && |page| == |ids| && i <= |ids| && IsAscending(ids) && matching <= t0.objects.Keys
    && (forall j :: i <= j < |ids| ==> ids[j] in matching && Less(last, ids[j]) && page[j] == RowCopy(t0, ids[j]))
    && (forall x :: x in matching && Less(last, x) ==> StillAhead(ids, i, x))
  }

  lemma PagePartNext(t0: Tables, matching: set<string>, last: string, page: seq<PageRow>, ids: seq<string>, i: nat)
    requires PagePart(t0, matching, last, page, ids, i) && i < |ids|
    ensures NextIn(matching, last, ids[i]) && PagePart(t0, matching, ids[i], page, ids, i + 1)
  {
    LessIsStrictTotalOrder();
    forall x | x in matching && Less(last, x) && !Less(ids[i], x) ensures x == ids[i] { }
    forall x | x in matching && Less(ids[i], x) ensures StillAhead(ids, i + 1, x) {
      LessTransitive(last, ids[i], x);
    }
    assert forall j :: i < j < |ids| ==> Less(ids[i], ids[j]);
  }

  predicate ObjectRows(page: seq<PageRow>) { forall j :: 0 <= j < |page| ==> page[j].target.ObjectTarget? }

  /** The cursor strictly rises, so fewer rows lie past it. */
  lemma FewerAhead(keys: set<string>, last: string, next: string)
    requires next in keys && Less(last, next)
    ensures |After(keys, next)| < |After(keys, last)|
  {
    forall x | x in After(keys, next) ensures x in After(keys, last) { LessTransitive(last, next, x); }
    LessIrreflexive(next);
    assert next in After(keys, last) && next !in After(keys, next);
    FewerElements(After(keys, next), After(keys, last));
  }

  lemma {:induction false} FewerElements(a: set<string>, b: set<string>)
    requires a < b
    ensures |a| < |b|
  {
    if a != {} {
      var x :| x in a;
      FewerElements(a - {x}, b - {x});
    }
  }
}
