/**
  The object lister of bin/s3-update-folder-owner.py (`objects`, lines 49-61):
  the one-time normalisation of the key prefix and of the resume cursor, and
  the flattening of the paginator's pages into one sequence of object
  summaries. The paginator itself (the remote `list_objects_v2` call) is not
  modelled: its pages are an input.
*/
module Listing {
  import opened Wrappers

  /** The default of `objects`' `delimiter` parameter (line 49), which the call at line 110 keeps. */
  const Delimiter: char := '/'

  /** The empty cursor, which Python's `or` treats as "no cursor given". */
  const NoCursor: string := ""

  /** One entry of a page's `Contents`: the key and the metadata the script carries but never reads. */
  datatype ObjectSummary = ObjectSummary(key: string, size: nat, eTag: string, lastModified: string)

  /** One page of a `list_objects_v2` response; `Contents` is absent on an empty page. */
  datatype Page = Page(contents: Option<seq<ObjectSummary>>)

  /**
    The prefix and start-after the paginator is called with (line 59); the
    bucket is passed through unchanged and is not part of this pair.
  */
  datatype Scope = Scope(prefix: string, startAfter: string)

  predicate StartsWithDelimiter(s: string) {
    |s| > 0 && s[0] == Delimiter
  }

  /** A "folder" prefix: one that ends with the delimiter. */
  predicate IsFolder(s: string) {
    |s| > 0 && s[|s| - 1] == Delimiter
  }

  /** Line 57: one leading delimiter, and only one, is removed. */
  function StripLeadingDelimiter(prefix: string): (r: string)
    ensures StartsWithDelimiter(prefix) ==> [Delimiter] + r == prefix
    ensures !StartsWithDelimiter(prefix) ==> r == prefix
    ensures |prefix| - 1 <= |r| <= |prefix|
  {
    if StartsWithDelimiter(prefix) then prefix[1..] else prefix
  }

  /**
    Line 58, applied to the already normalised prefix: a folder prefix stands
    in for a missing cursor; otherwise the caller's cursor, empty or not, is kept.
  */
  function EffectiveStartAfter(prefix: string, startAfter: string): (r: string)
    ensures startAfter != NoCursor ==> r == startAfter
    ensures startAfter == NoCursor && IsFolder(prefix) ==> r == prefix
    ensures !IsFolder(prefix) ==> r == startAfter
  {
    if IsFolder(prefix) then (if startAfter != NoCursor then startAfter else prefix)
    else startAfter
  }

  /** Lines 57-58 together: the prefix and cursor the listing is requested for. */
  function Normalise(prefix: string, startAfter: string): (r: Scope)
    ensures StartsWithDelimiter(prefix) ==> [Delimiter] + r.prefix == prefix
    ensures !StartsWithDelimiter(prefix) ==> r.prefix == prefix
    ensures startAfter != NoCursor ==> r.startAfter == startAfter
    ensures startAfter == NoCursor && IsFolder(r.prefix) ==> r.startAfter == r.prefix
    ensures !IsFolder(r.prefix) ==> r.startAfter == startAfter
  {
    var p := StripLeadingDelimiter(prefix);
    Scope(p, EffectiveStartAfter(p, startAfter))
  }

  /** Stripping undoes prepending one delimiter, whatever the rest of the string holds. */
  lemma StripAfterPrepend(p: string)
    ensures StripLeadingDelimiter([Delimiter] + p) == p
  {
  }

  /** The stripped prefix characterised without reference to how it is computed. */
  lemma StripCharacterised(p: string, q: string)
    ensures StripLeadingDelimiter(p) == q <==> (p == [Delimiter] + q || (p == q && !StartsWithDelimiter(p)))
  {
  }

  /** `"//a"` loses one slash only, so normalising twice is not normalising once. */
  lemma NormaliseNotIdempotent()
    ensures Normalise("//a", NoCursor) == Scope("/a", NoCursor)
    ensures Normalise("/a", NoCursor) == Scope("a", NoCursor)
  {
  }

  /** The root prefix `"/"` becomes the empty prefix, which is no folder, so no cursor is invented for it. */
  lemma RootPrefixBecomesEmpty(startAfter: string)
    ensures Normalise("/", startAfter) == Scope("", startAfter)
  {
  }

  /** The effective cursor is always either the caller's cursor or the normalised prefix. */
  lemma CursorIsCallerOrPrefix(prefix: string, startAfter: string)
    ensures var r := Normalise(prefix, startAfter);
      r.startAfter == startAfter || (r.startAfter == r.prefix && IsFolder(r.prefix) && startAfter == NoCursor)
  {
  }

  /**
    The effective cursor characterised in both directions: it is the prefix
    exactly when the caller passed the prefix itself, or passed no cursor for
    a folder prefix; otherwise it is the caller's cursor.
  */
  lemma CursorCharacterised(prefix: string, startAfter: string)
    ensures EffectiveStartAfter(prefix, startAfter) == prefix <==>
      (startAfter == prefix || (startAfter == NoCursor && IsFolder(prefix)))
    ensures EffectiveStartAfter(prefix, startAfter) != prefix ==> EffectiveStartAfter(prefix, startAfter) == startAfter
  {
  }

  /** Resuming with the effective cursor yields the same cursor again. */
  lemma CursorIdempotent(prefix: string, startAfter: string)
    ensures EffectiveStartAfter(prefix, EffectiveStartAfter(prefix, startAfter)) == EffectiveStartAfter(prefix, startAfter)
  {
  }

  /** The objects of one page; a page without `Contents` has none (line 60). */
  function Contents(page: Page): (r: seq<ObjectSummary>)
    ensures page.contents.None? ==> r == []
    ensures page.contents.Some? ==> r == page.contents.value
  {
    page.contents.GetOr([])
  }

  /** Reference definition of the listing: the pages' contents, concatenated in page order. */
  function Flatten(pages: seq<Page>): (r: seq<ObjectSummary>)
    ensures |pages| > 0 ==> Contents(pages[0]) <= r
    ensures (forall i :: 0 <= i < |pages| ==> Contents(pages[i]) == []) ==> r == []
    ensures forall o :: o in r ==> exists i :: 0 <= i < |pages| && o in Contents(pages[i])
    decreases |pages|
  {
    if |pages| == 0 then [] else Contents(pages[0]) + Flatten(pages[1..])
  }

  /** Flattening distributes over concatenation of page sequences: the listing keeps page order. */
  lemma {:induction false} FlattenAppend(a: seq<Page>, b: seq<Page>)
    ensures Flatten(a + b) == Flatten(a) + Flatten(b)
    decreases |a|
  {
    if |a| == 0 {
      assert a + b == b;
    } else {
      assert (a + b)[1..] == a[1..] + b;
      FlattenAppend(a[1..], b);
    }
  }

  /** A page without `Contents` contributes nothing wherever it appears. */
  lemma EmptyPageContributesNothing(a: seq<Page>, b: seq<Page>)
    ensures Flatten(a + [Page(None)] + b) == Flatten(a + b)
  {
    FlattenAppend(a + [Page(None)], b);
    FlattenAppend(a, [Page(None)]);
    FlattenAppend(a, b);
  }

  /** An object is listed exactly when some page carries it. */
  lemma {:induction false} FlattenMembership(pages: seq<Page>, o: ObjectSummary)
    ensures o in Flatten(pages) <==> exists i :: 0 <= i < |pages| && o in Contents(pages[i])
    decreases |pages|
  {
    if |pages| > 0 {
      FlattenMembership(pages[1..], o);
      if o in Flatten(pages[1..]) {
        var i :| 0 <= i < |pages[1..]| && o in Contents(pages[1..][i]);
        assert o in Contents(pages[i + 1]);
      }
      if exists i :: 0 <= i < |pages| && o in Contents(pages[i]) {
        var i :| 0 <= i < |pages| && o in Contents(pages[i]);
        if i > 0 {
          assert o in Contents(pages[1..][i - 1]);
        }
      }
    }
  }

  /**
    The generator's two nested loops (lines 59-61), written as one pass over
    the pages: the objects it yields are exactly the flattened listing.
  */
  method ListObjects(pages: seq<Page>) returns (objs: seq<ObjectSummary>)
    ensures objs == Flatten(pages)
  {
    objs := [];
    var i := 0;
    while i < |pages|
      invariant 0 <= i <= |pages|
      invariant objs == Flatten(pages[..i])
    {
      FlattenAppend(pages[..i], [pages[i]]);
      assert pages[..i + 1] == pages[..i] + [pages[i]];
      objs := objs + Contents(pages[i]);
      i := i + 1;
    }
    assert pages[..i] == pages;
  }
}
