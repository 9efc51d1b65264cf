/**
 * getOccurrenceAnnotationsInPyEdit: the mark-occurrences annotations an
 * editor has cached, picked out of the other annotations cached beside them.
 */
module Annotations {
  import opened Wrappers

  const ANNOTATIONS_CACHE_KEY := "MarkOccurrencesJob Annotations"
  const OCCURRENCE_ANNOTATION_TYPE := "com.python.pydev.occurrences"

  /** A JFace annotation: its type and its text. */
  datatype Annotation = Annotation(annotationType: string, text: string)

  predicate IsOccurrence(a: Annotation) {
    a.annotationType == OCCURRENCE_ANNOTATION_TYPE
  }

  /** The occurrence annotations of a list, in their order. */
  function Occurrences(annotations: seq<Annotation>): (r: seq<Annotation>)
    ensures forall i :: 0 <= i < |r| ==> IsOccurrence(r[i])
    ensures forall a :: IsOccurrence(a) ==> multiset(r)[a] == multiset(annotations)[a]
  {
    if annotations == [] then []
    else
      var init, last := annotations[..|annotations| - 1], annotations[|annotations| - 1];
      assert annotations == init + [last];
      Occurrences(init) + (if IsOccurrence(last) then [last] else [])
  }

  /** Picking occurrences works list piece by list piece, so their order is kept. */
  lemma {:induction false} OccurrencesConcat(a: seq<Annotation>, b: seq<Annotation>)
    ensures Occurrences(a + b) == Occurrences(a) + Occurrences(b)
  {
    if b != [] {
      var init := b[..|b| - 1];
      assert (a + b)[..|a + b| - 1] == a + init;
      OccurrencesConcat(a, init);
    } else {
      assert a + b == a;
    }
  }

  /**
   * getOccurrenceAnnotationsInPyEdit on the editor's cache (None for a null
   * cache): the occurrence annotations cached under ANNOTATIONS_CACHE_KEY, or
   * none when there is no cache or no such entry.
   */
  method GetOccurrenceAnnotationsInPyEdit(cache: Option<map<string, seq<Annotation>>>) returns (toRemove: seq<Annotation>)
    ensures cache.None? || ANNOTATIONS_CACHE_KEY !in cache.value ==> toRemove == []
    ensures cache.Some? && ANNOTATIONS_CACHE_KEY in cache.value ==>
      && (forall i :: 0 <= i < |toRemove| ==> IsOccurrence(toRemove[i]))
      && (forall a :: IsOccurrence(a) ==> multiset(toRemove)[a] == multiset(cache.value[ANNOTATIONS_CACHE_KEY])[a])
      && toRemove == Occurrences(cache.value[ANNOTATIONS_CACHE_KEY])
  {
    toRemove := [];
    if cache.None? {
      return;
    }
    if ANNOTATIONS_CACHE_KEY in cache.value {
      var inEdit := cache.value[ANNOTATIONS_CACHE_KEY];
      var i := 0;
      while i < |inEdit|
        invariant 0 <= i <= |inEdit|
        invariant toRemove == Occurrences(inEdit[..i])
      {
        assert inEdit[..i + 1][..i] == inEdit[..i];
        if IsOccurrence(inEdit[i]) {
          toRemove := toRemove + [inEdit[i]];
        }
        i := i + 1;
      }
      assert inEdit[..i] == inEdit;
    }
  }
}
