/**
 The persistence gateway's own logic over an abstract document store: the
 document id derived from a company name, whole-record overwrite on save,
 listing, and deleting one or all of a user's saved companies.

 The store is a map from user id to that user's `savedCompanies`
 collection, itself a map from document id to record. The clock is a
 parameter `now`; store failures are not modelled here (the views model
 them as outcomes of their calls).
 */
module FirestoreService {
  import opened Types
  import opened Text

  /** A stored document: everything of `SavedCompany` except its id, which is the key. */
  datatype Record = Record(companyName: string, articles: seq<NewsArticle>, lastUpdated: int, articleCount: int)

  /** user id -> document id -> record */
  type Store = map<string, map<string, Record>>

  /** A user's collection; a user with no collection has no documents. */
  function Docs(store: Store, uid: string): map<string, Record> {
    if uid in store then store[uid] else map[]
  }

  /** Replaces each maximal run of whitespace with a single `-`. */
  function CollapseSpaces(s: string): (r: string)
    ensures forall i :: 0 <= i < |r| ==> !IsSpace(r[i])
    ensures (forall i :: 0 <= i < |s| ==> !IsUpper(s[i])) ==> forall i :: 0 <= i < |r| ==> !IsUpper(r[i])
    ensures |r| <= |s|
    ensures r == [] <==> s == []
    decreases |s|
  {
    if s == [] then []
    else if IsSpace(s[0]) then "-" + CollapseSpaces(s[LeadingCount(s, IsSpace)..])
    else [s[0]] + CollapseSpaces(s[1..])
  }

  /**
   The document id of a company: the name lower-cased, with every maximal
   whitespace run replaced by one `-`. It holds no whitespace and no
   upper-case letter.
   */
  function Slug(companyName: string): (id: string)
    ensures forall i :: 0 <= i < |id| ==> !IsSpace(id[i]) && !IsUpper(id[i])
  {
    CollapseSpaces(Lower(companyName))
  }

  lemma {:induction false} CollapseSpacesClean(s: string)
    requires forall i :: 0 <= i < |s| ==> !IsSpace(s[i])
    ensures CollapseSpaces(s) == s
    decreases |s|
  {
    if s != [] {
      CollapseSpacesClean(s[1..]);
    }
  }

  /** A slug is its own slug. */
  lemma {:induction false} SlugIdempotent(companyName: string)
    ensures Slug(Slug(companyName)) == Slug(companyName)
  {
    var id := Slug(companyName);
    LowerClean(id);
    CollapseSpacesClean(id);
  }

  /** How far the leading whitespace run of a concatenation reaches. */
  lemma {:induction false} LeadingSpacesAppend(x: string, y: string)
    ensures LeadingCount(x, IsSpace) < |x| ==> LeadingCount(x + y, IsSpace) == LeadingCount(x, IsSpace)
    ensures LeadingCount(x, IsSpace) == |x| ==> LeadingCount(x + y, IsSpace) == |x| + LeadingCount(y, IsSpace)
  {
    if x == [] {
      assert x + y == y;
    } else {
      assert (x + y)[0] == x[0];
      if IsSpace(x[0]) {
        LeadingSpacesAppend(x[1..], y);
        assert (x + y)[1..] == x[1..] + y;
        assert LeadingCount(x, IsSpace) == 1 + LeadingCount(x[1..], IsSpace);
        assert LeadingCount(x + y, IsSpace) == 1 + LeadingCount(x[1..] + y, IsSpace);
      }
    }
  }

  /**
   Collapsing does not depend on how long a whitespace run is: two strings
   that differ only in the length of one run collapse alike.
   */
  lemma {:induction false} CollapseRunLength(a: string, r1: string, r2: string, b: string)
    requires r1 != [] && r2 != []
    requires AllIn(r1, 0, |r1|, IsSpace) && AllIn(r2, 0, |r2|, IsSpace)
    ensures CollapseSpaces(a + r1 + b) == CollapseSpaces(a + r2 + b)
    decreases |a|
  {
    if a == [] {
      assert a + r1 + b == r1 + b;
      assert a + r2 + b == r2 + b;
      CollapseRunAtStart(r1, b);
      CollapseRunAtStart(r2, b);
    } else if !IsSpace(a[0]) {
      WordThenRest(a, r1, b);
      WordThenRest(a, r2, b);
      CollapseWordStep(a + r1 + b);
      CollapseWordStep(a + r2 + b);
      CollapseRunLength(a[1..], r1, r2, b);
    } else if LeadingCount(a, IsSpace) == |a| {
      assert AllIn(a + r1, 0, |a + r1|, IsSpace);
      assert AllIn(a + r2, 0, |a + r2|, IsSpace);
      CollapseRunAtStart(a + r1, b);
      CollapseRunAtStart(a + r2, b);
    } else {
      CollapseOverLeadingRunJoin(a, r1, b);
      CollapseOverLeadingRunJoin(a, r2, b);
      CollapseRunLength(a[LeadingCount(a, IsSpace)..], r1, r2, b);
    }
  }

  /** A string starting with a whitespace run collapses to `-` followed by what comes after the run. */
  lemma {:induction false} CollapseRunAtStart(r: string, b: string)
    requires r != [] && AllIn(r, 0, |r|, IsSpace)
    ensures CollapseSpaces(r + b) == "-" + CollapseSpaces(b[LeadingCount(b, IsSpace)..])
  {
    RunThenRest(r, b);
    CollapseLeadingRun(r + b);
  }

  /** The leading whitespace run of `r + b`, for `r` all whitespace, is `r` and the leading run of `b`. */
  lemma {:induction false} RunThenRest(r: string, b: string)
    requires r != [] && AllIn(r, 0, |r|, IsSpace)
    ensures r + b != [] && IsSpace((r + b)[0])
    ensures (r + b)[LeadingCount(r + b, IsSpace)..] == b[LeadingCount(b, IsSpace)..]
  {
    assert (r + b)[0] == r[0];
    assert LeadingCount(r, IsSpace) == |r| by {
      AllSpacesCount(r);
    }
    LeadingSpacesAppend(r, b);
    assert (r + b)[|r| + LeadingCount(b, IsSpace)..] == b[LeadingCount(b, IsSpace)..];
  }

  lemma {:induction false} AllSpacesCount(r: string)
    requires AllIn(r, 0, |r|, IsSpace)
    ensures LeadingCount(r, IsSpace) == |r|
  {
    if r != [] {
      AllSpacesCount(r[1..]);
    }
  }

  /**
   Collapsing works word by word: a whitespace run between a part that does
   not end in whitespace and a part that does not start with it becomes one
   `-` between the collapsed parts. With `CollapseSpacesClean` this fixes
   the result of every input.
   */
  lemma {:induction false} CollapseJoin(x: string, r: string, y: string)
    requires x == [] || !IsSpace(x[|x| - 1])
    requires r != [] && AllIn(r, 0, |r|, IsSpace)
    requires y == [] || !IsSpace(y[0])
    ensures CollapseSpaces(x + r + y) == CollapseSpaces(x) + "-" + CollapseSpaces(y)
    decreases |x|
  {
    if x == [] {
      assert x + r + y == r + y;
      CollapseRunAtStart(r, y);
      assert y[LeadingCount(y, IsSpace)..] == y;
    } else if !IsSpace(x[0]) {
      CollapseJoinWord(x, r, y);
    } else {
      CollapseJoinRun(x, r, y);
    }
  }

  /** The step of `CollapseJoin` for a part starting with a non-space character. */
  lemma {:induction false} CollapseJoinWord(x: string, r: string, y: string)
    requires x != [] && !IsSpace(x[0]) && !IsSpace(x[|x| - 1])
    requires r != [] && AllIn(r, 0, |r|, IsSpace)
    requires y == [] || !IsSpace(y[0])
    ensures CollapseSpaces(x + r + y) == CollapseSpaces(x) + "-" + CollapseSpaces(y)
    decreases |x|, 0
  {
    var t := x[1..];
    assert t == [] || t[|t| - 1] == x[|x| - 1];
    CollapseJoin(t, r, y);
    WordThenRest(x, r, y);
    CollapseWordStep(x + r + y);
    CollapseWordStep(x);
    CharRegroup(x[0], CollapseSpaces(t), CollapseSpaces(y));
  }

  /** `x + r + y` starts with the first character of `x`, followed by the rest of `x`, `r` and `y`. */
  lemma {:induction false} WordThenRest(x: string, r: string, y: string)
    requires x != []
    ensures x + r + y != [] && (x + r + y)[0] == x[0] && (x + r + y)[1..] == x[1..] + r + y
  {
  }

  /** A string starting with a non-space character keeps it and collapses the rest. */
  lemma {:induction false} CollapseWordStep(s: string)
    requires s != [] && !IsSpace(s[0])
    ensures CollapseSpaces(s) == [s[0]] + CollapseSpaces(s[1..])
  {
  }

  lemma {:induction false} CharRegroup(c: char, a: string, b: string)
    ensures [c] + (a + "-" + b) == ([c] + a) + "-" + b
  {
  }

  /** The step of `CollapseJoin` for a part starting with a whitespace run. */
  lemma {:induction false} CollapseJoinRun(x: string, r: string, y: string)
    requires x != [] && IsSpace(x[0]) && !IsSpace(x[|x| - 1])
    requires r != [] && AllIn(r, 0, |r|, IsSpace)
    requires y == [] || !IsSpace(y[0])
    ensures CollapseSpaces(x + r + y) == CollapseSpaces(x) + "-" + CollapseSpaces(y)
    decreases |x|, 0
  {
    var n := LeadingCount(x, IsSpace);
    assert n < |x|;
    var t := x[n..];
    assert t[|t| - 1] == x[|x| - 1];
    CollapseJoin(t, r, y);
    CollapseAfterLeadingRun(x, r, y);
  }

  /** Lifts `CollapseJoin` for the rest of a part over that part's leading whitespace run. */
  lemma {:induction false} CollapseAfterLeadingRun(x: string, r: string, y: string)
    requires x != [] && IsSpace(x[0]) && !IsSpace(x[|x| - 1])
    requires LeadingCount(x, IsSpace) < |x|
    requires CollapseSpaces(x[LeadingCount(x, IsSpace)..] + r + y)
      == CollapseSpaces(x[LeadingCount(x, IsSpace)..]) + "-" + CollapseSpaces(y)
    ensures CollapseSpaces(x + r + y) == CollapseSpaces(x) + "-" + CollapseSpaces(y)
  {
    var t := x[LeadingCount(x, IsSpace)..];
    CollapseOverLeadingRunJoin(x, r, y);
    CollapseLeadingRun(x);
    DashRegroup(CollapseSpaces(t), CollapseSpaces(y));
  }

  /** `CollapseOverLeadingRun` for a tail that is itself a concatenation. */
  lemma {:induction false} CollapseOverLeadingRunJoin(x: string, r: string, y: string)
    requires x != [] && IsSpace(x[0]) && LeadingCount(x, IsSpace) < |x|
    ensures CollapseSpaces(x + r + y) == "-" + CollapseSpaces(x[LeadingCount(x, IsSpace)..] + r + y)
  {
    var t := x[LeadingCount(x, IsSpace)..];
    CollapseOverLeadingRun(x, r + y);
    assert x + (r + y) == x + r + y;
    assert t + (r + y) == t + r + y;
  }

  /** Whatever follows a part that starts with whitespace but is not all whitespace, its leading run becomes one `-`. */
  lemma {:induction false} CollapseOverLeadingRun(x: string, z: string)
    requires x != [] && IsSpace(x[0]) && LeadingCount(x, IsSpace) < |x|
    ensures CollapseSpaces(x + z) == "-" + CollapseSpaces(x[LeadingCount(x, IsSpace)..] + z)
  {
    LeadingRunOfJoin(x, z);
    CollapseLeadingRun(x + z);
  }

  lemma {:induction false} DashRegroup(a: string, b: string)
    ensures "-" + (a + "-" + b) == ("-" + a) + "-" + b
  {
  }

  /** A leading whitespace run that stops inside `x` is unchanged by appending. */
  lemma {:induction false} LeadingRunOfJoin(x: string, z: string)
    requires LeadingCount(x, IsSpace) < |x|
    ensures LeadingCount(x + z, IsSpace) == LeadingCount(x, IsSpace)
    ensures (x + z)[LeadingCount(x, IsSpace)..] == x[LeadingCount(x, IsSpace)..] + z
  {
    LeadingSpacesAppend(x, z);
  }

  /** A string starting with whitespace collapses to `-` followed by what comes after its leading run. */
  lemma {:induction false} CollapseLeadingRun(s: string)
    requires s != [] && IsSpace(s[0])
    ensures CollapseSpaces(s) == "-" + CollapseSpaces(s[LeadingCount(s, IsSpace)..])
  {
  }

  /** A name without whitespace has its lower-cased self as document id. */
  lemma {:induction false} SlugOfWord(name: string)
    requires forall i :: 0 <= i < |name| ==> !IsSpace(name[i])
    ensures Slug(name) == Lower(name)
  {
    CollapseSpacesClean(Lower(name));
  }

  /**
   The document id of a name with a whitespace run inside is the id of the
   part before the run, a `-`, and the id of the part after it.
   */
  lemma {:induction false} SlugJoin(x: string, r: string, y: string)
    requires x == [] || !IsSpace(x[|x| - 1])
    requires r != [] && AllIn(r, 0, |r|, IsSpace)
    requires y == [] || !IsSpace(y[0])
    ensures Slug(x + r + y) == Slug(x) + "-" + Slug(y)
  {
    LowerAppend(x + r, y);
    LowerAppend(x, r);
    LowerClean(r);
    CollapseJoin(Lower(x), r, Lower(y));
  }

  /**
   Two names without whitespace share a document exactly when they are
   equal after lower-casing.
   */
  lemma {:induction false} WordsShareDocument(a: string, b: string)
    requires forall i :: 0 <= i < |a| ==> !IsSpace(a[i])
    requires forall i :: 0 <= i < |b| ==> !IsSpace(b[i])
    ensures Slug(a) == Slug(b) <==> Lower(a) == Lower(b)
  {
    SlugOfWord(a);
    SlugOfWord(b);
  }

  /**
   Names that differ only in letter case, or only in the length of a
   whitespace run, name the same document.
   */
  lemma {:induction false} SameDocument(a: string, r1: string, r2: string, b: string)
    requires r1 != [] && r2 != []
    requires AllIn(r1, 0, |r1|, IsSpace) && AllIn(r2, 0, |r2|, IsSpace)
    ensures Slug(a + r1 + b) == Slug(a + r2 + b)
    ensures Slug(Lower(a + r1 + b)) == Slug(a + r1 + b)
  {
    LowerAppend(a + r1, b);
    LowerAppend(a, r1);
    LowerAppend(a + r2, b);
    LowerAppend(a, r2);
    LowerClean(r1);
    LowerClean(r2);
    CollapseRunLength(Lower(a), r1, r2, Lower(b));
    LowerIdempotent(a + r1 + b);
  }

  /**
   `saveArticlesToFirestore`: writes the whole record under the slug of the
   company name, with `articleCount` equal to the number of articles;
   whatever was stored there before is replaced, not merged, and no other
   document or user is touched.
   */
  function SaveArticles(store: Store, uid: string, companyName: string, articles: seq<NewsArticle>, now: int): (st: Store)
    ensures Docs(st, uid).Keys == Docs(store, uid).Keys + {Slug(companyName)}
    ensures Docs(st, uid)[Slug(companyName)] == Record(companyName, articles, now, |articles|)
    ensures forall id :: id in Docs(store, uid) && id != Slug(companyName) ==> Docs(st, uid)[id] == Docs(store, uid)[id]
    ensures forall u :: u != uid ==> Docs(st, u) == Docs(store, u)
  {
    store[uid := Docs(store, uid)[Slug(companyName) := Record(companyName, articles, now, |articles|)]]
  }

  /**
   A later save under a name with the same slug replaces the earlier one
   entirely: the store is as if only the later save had happened.
   */
  lemma LaterSaveReplaces(store: Store, uid: string, n1: string, a1: seq<NewsArticle>, t1: int, n2: string, a2: seq<NewsArticle>, t2: int)
    requires Slug(n1) == Slug(n2)
    ensures SaveArticles(SaveArticles(store, uid, n1, a1, t1), uid, n2, a2, t2) == SaveArticles(store, uid, n2, a2, t2)
  {
    var id := Slug(n2);
    var first := SaveArticles(store, uid, n1, a1, t1);
    assert Docs(first, uid) == Docs(store, uid)[id := Record(n1, a1, t1, |a1|)];
    assert Docs(first, uid)[id := Record(n2, a2, t2, |a2|)] == Docs(store, uid)[id := Record(n2, a2, t2, |a2|)];
  }

  /** The listing's view of one document. */
  function AsSaved(id: string, rec: Record): SavedCompany {
    SavedCompany(id, rec.companyName, rec.articles, rec.lastUpdated, rec.articleCount)
  }

  /**
   `getSavedCompanies`: every document of the user exactly once, with its id.
   The order is whatever the store lists them in, which this model leaves open.
   */
  method GetSavedCompanies(store: Store, uid: string) returns (list: seq<SavedCompany>)
    ensures |list| == |Docs(store, uid)|
    ensures forall i :: 0 <= i < |list| ==> list[i].id in Docs(store, uid) && list[i] == AsSaved(list[i].id, Docs(store, uid)[list[i].id])
    ensures forall i, j :: 0 <= i < j < |list| ==> list[i].id != list[j].id
    ensures forall id :: id in Docs(store, uid) ==> exists i :: 0 <= i < |list| && list[i].id == id
  {
    var docs := Docs(store, uid);
    var remaining := docs.Keys;
    list := [];
    while remaining != {}
      invariant remaining <= docs.Keys
      invariant |list| + |remaining| == |docs.Keys|
      invariant forall i :: 0 <= i < |list| ==> list[i].id in docs && list[i].id !in remaining && list[i] == AsSaved(list[i].id, docs[list[i].id])
      invariant forall i, j :: 0 <= i < j < |list| ==> list[i].id != list[j].id
      invariant forall id :: id in docs && id !in remaining ==> exists i :: 0 <= i < |list| && list[i].id == id
      decreases |remaining|
    {
      var id :| id in remaining;
      var before := list;
      list := list + [AsSaved(id, docs[id])];
      assert list[|list| - 1].id == id;
      forall other | other in docs && other !in remaining - {id}
        ensures exists i :: 0 <= i < |list| && list[i].id == other
      {
        if other == id {
          assert list[|list| - 1].id == other;
        } else {
          var i :| 0 <= i < |before| && before[i].id == other;
          assert list[i].id == other;
        }
      }
      remaining := remaining - {id};
    }
    assert docs.Keys == docs.Keys - remaining;
  }

  /**
   Save, then list: the listing holds exactly one record for the company,
   with id the slug, the articles as saved and `articleCount` their number;
   it has one entry per distinct document, so saving the same company again
   does not add a second one.
   */
  method SaveThenList(store: Store, uid: string, companyName: string, articles: seq<NewsArticle>, now: int)
    returns (list: seq<SavedCompany>)
    ensures |list| == |Docs(store, uid).Keys + {Slug(companyName)}|
    ensures exists i :: 0 <= i < |list| && list[i].id == Slug(companyName)
    ensures forall i :: 0 <= i < |list| && list[i].id == Slug(companyName) ==>
      list[i].articles == articles && list[i].articleCount == |articles| && list[i].companyName == companyName
    ensures forall i, j :: 0 <= i < j < |list| ==> list[i].id != list[j].id
  {
    var st := SaveArticles(store, uid, companyName, articles, now);
    list := GetSavedCompanies(st, uid);
    assert |Docs(st, uid)| == |Docs(st, uid).Keys|;
  }

  /** `deleteSavedCompany`: removes exactly that document of that user. */
  function DeleteSavedCompany(store: Store, uid: string, id: string): (st: Store)
    ensures Docs(st, uid).Keys == Docs(store, uid).Keys - {id}
    ensures forall k :: k in Docs(st, uid) ==> Docs(st, uid)[k] == Docs(store, uid)[k]
    ensures forall u :: u != uid ==> Docs(st, u) == Docs(store, u)
  {
    if uid in store then store[uid := store[uid] - {id}] else store
  }

  /**
   `deleteAllSavedCompanies`: lists the user's documents and deletes each of
   them; afterwards the user has none and no other user is touched.
   */
  method DeleteAllSavedCompanies(store: Store, uid: string) returns (st: Store)
    ensures Docs(st, uid) == map[]
    ensures forall u :: u != uid ==> Docs(st, u) == Docs(store, u)
  {
    var listed := GetSavedCompanies(store, uid);
    st := store;
    var i := 0;
    while i < |listed|
      invariant 0 <= i <= |listed|
      invariant Docs(st, uid).Keys <= Docs(store, uid).Keys
      invariant forall k :: 0 <= k < i ==> listed[k].id !in Docs(st, uid)
      invariant forall u :: u != uid ==> Docs(st, u) == Docs(store, u)
    {
      st := DeleteSavedCompany(st, uid, listed[i].id);
      i := i + 1;
    }
    forall id | id in Docs(store, uid)
      ensures id !in Docs(st, uid)
    {
      var k :| 0 <= k < |listed| && listed[k].id == id;
    }
    assert Docs(st, uid).Keys == {};
  }

  /**
   Every document of the user sits under the slug of the company name it
   holds. Saving and deleting keep this, so a listed company's id is always
   the slug of its name.
   */
  predicate WellKeyed(store: Store, uid: string) {
    forall id :: id in Docs(store, uid) ==> id == Slug(Docs(store, uid)[id].companyName)
  }

  lemma SaveKeepsWellKeyed(store: Store, uid: string, companyName: string, articles: seq<NewsArticle>, now: int)
    requires WellKeyed(store, uid)
    ensures WellKeyed(SaveArticles(store, uid, companyName, articles, now), uid)
  {
  }

  lemma DeleteKeepsWellKeyed(store: Store, uid: string, id: string)
    requires WellKeyed(store, uid)
    ensures WellKeyed(DeleteSavedCompany(store, uid, id), uid)
  {
  }
}
