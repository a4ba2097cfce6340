/**
 * Properties of the repertoire that relate several handler steps: what a
 * create, an update and a delete keep true, how a path id selects a song,
 * and the reuse of ids after a delete.
 */
module Laws {
  import opened NumberText
  import opened Songs

  /** A path text selects a song exactly when it is the canonical text of that song's id. */
  lemma IdMatchesIffParsed(song: Song, pathId: string)
    ensures IdMatches(song, pathId) <==> IsIntText(pathId) && ParseInt(pathId) == song.id
  {
    IntToStringRoundTrip(song.id);
    if IsIntText(pathId) {
      ParseIntRoundTrip(pathId);
    }
  }

  /** Text that is not an integer's canonical text ("abc", "01", "", "-0") finds nothing. */
  lemma NonNumericPathFindsNothing(s: seq<Song>, pathId: string)
    requires !IsIntText(pathId)
    ensures IndexOfId(s, pathId) == -1
  {
  }

  /** With ids unique, at most one song matches a path id. */
  lemma AtMostOneMatch(s: seq<Song>, pathId: string, i: int, j: int)
    requires IdsUnique(s)
    requires 0 <= i < |s| && 0 <= j < |s|
    requires IdMatches(s[i], pathId) && IdMatches(s[j], pathId)
    ensures i == j
  {
    IntToStringInjective(s[i].id, s[j].id);
  }

  /** The characterisation of `IndexOfId`: the first matching index is the answer. */
  lemma IndexOfIdIsFirstMatch(s: seq<Song>, pathId: string, k: int)
    requires 0 <= k < |s| && IdMatches(s[k], pathId)
    requires forall j :: 0 <= j < k ==> !IdMatches(s[j], pathId)
    ensures IndexOfId(s, pathId) == k
  {
  }

  /**
   * Appending the song that create builds keeps each property on its own:
   * ids stay unique (the new id is above all others), fields stay filled,
   * and triples stay unique when the triple was not found.
   */
  lemma CreatePreservesWellformed(s: seq<Song>, titulo: string, artista: string, tono: string)
    ensures IdsUnique(s) ==> IdsUnique(s + [Song(MaxIdOf(s) + 1, titulo, artista, tono)])
    ensures FieldsFilled(s) && titulo != "" && artista != "" && tono != "" ==>
              FieldsFilled(s + [Song(MaxIdOf(s) + 1, titulo, artista, tono)])
    ensures TriplesUnique(s) && FindTriple(s, titulo, artista, tono).None? ==>
              TriplesUnique(s + [Song(MaxIdOf(s) + 1, titulo, artista, tono)])
  {
  }

  /**
   * A song appended with an id above every existing one (as create's is) is
   * the one its id text selects, so a later update or delete through that text
   * reaches it.
   */
  lemma CreatedSongIsAddressable(s: seq<Song>, n: Song)
    requires n.id > MaxIdOf(s)
    ensures IndexOfId(s + [n], IntToString(n.id)) == |s|
  {
    var t := s + [n];
    assert IndexOfId(t, IntToString(n.id)) == |s| by {
      assert forall j :: 0 <= j < |s| ==> t[j] == s[j] && t[j].id < n.id;
      LargerIdDoesNotMatch(t, |s|, n.id);
      assert t[|s|] == n;
      IndexOfIdIsFirstMatch(t, IntToString(n.id), |s|);
    }
  }

  /**
   * Ids come from the current maximum, not from a counter: the text of the id
   * a create issued finds the appended song, and once DELETE has spliced it out
   * the next create computes the same id again.
   */
  lemma CreateAfterDeleteReusesId(s: seq<Song>, n: Song)
    requires n.id == MaxIdOf(s) + 1
    ensures IndexOfId(s + [n], IntToString(n.id)) == |s|
    ensures MaxIdOf((s + [n])[..IndexOfId(s + [n], IntToString(n.id))]
                    + (s + [n])[IndexOfId(s + [n], IntToString(n.id)) + 1..]) + 1 == n.id
  {
    var t := s + [n];
    CreatedSongIsAddressable(s, n);
    var k := IndexOfId(t, IntToString(n.id));
    assert t[..k] + t[k + 1..] == s by {
      assert t[..k] == s && t[k + 1..] == [];
    }
  }

  lemma LargerIdDoesNotMatch(s: seq<Song>, k: int, id: int)
    requires 0 <= k <= |s|
    requires forall j :: 0 <= j < k ==> s[j].id < id
    ensures forall j :: 0 <= j < k ==> !IdMatches(s[j], IntToString(id))
  {
    forall j | 0 <= j < k ensures !IdMatches(s[j], IntToString(id)) {
      IntToStringInjective(s[j].id, id);
    }
  }

  /**
   * An update keeps ids unique and fields filled, and every later lookup by
   * path id finds the same index as before, so repeating it changes nothing more.
   */
  lemma UpdatePreservesIds(s: seq<Song>, i: int, titulo: string, artista: string, tono: string, pathId: string)
    requires 0 <= i < |s|
    ensures var r := Retitled(s, i, titulo, artista, tono);
            && (IdsUnique(s) ==> IdsUnique(r))
            && (FieldsFilled(s) && titulo != "" && artista != "" && tono != "" ==> FieldsFilled(r))
            && IndexOfId(r, pathId) == IndexOfId(s, pathId)
            && Retitled(r, i, titulo, artista, tono) == r
  {
  }

  /** Triple uniqueness is checked only by create: an update can make two songs identical. */
  lemma UpdateCanDuplicateTriple()
    ensures var s := [Song(1, "Imagine", "Lennon", "C"), Song(2, "Help", "Lennon", "C")];
            && Wellformed(s)
            && !TriplesUnique(Retitled(s, 1, "Imagine", "Lennon", "C"))
  {
    var s := [Song(1, "Imagine", "Lennon", "C"), Song(2, "Help", "Lennon", "C")];
    var r := Retitled(s, 1, "Imagine", "Lennon", "C");
    assert SameTriple(r[1], r[0].titulo, r[0].artista, r[0].tono);
  }

  /** The element at position j after removing position i. */
  lemma RemovedAt(s: seq<Song>, i: int, j: int)
    requires 0 <= i < |s| && 0 <= j < |s| - 1
    ensures (s[..i] + s[i + 1..])[j] == s[if j < i then j else j + 1]
  {
  }

  /** Removing one song keeps each of the three properties on its own. */
  lemma DeletePreservesWellformed(s: seq<Song>, i: int)
    requires 0 <= i < |s|
    ensures IdsUnique(s) ==> IdsUnique(s[..i] + s[i + 1..])
    ensures FieldsFilled(s) ==> FieldsFilled(s[..i] + s[i + 1..])
    ensures TriplesUnique(s) ==> TriplesUnique(s[..i] + s[i + 1..])
  {
  }

  /**
   * With ids unique, the text of song i's id finds song i, and after song i is
   * deleted that text finds nothing.
   */
  lemma DeleteRemovesTheMatch(s: seq<Song>, i: int)
    requires IdsUnique(s)
    requires 0 <= i < |s|
    ensures IndexOfId(s, IntToString(s[i].id)) == i
    ensures IndexOfId(s[..i] + s[i + 1..], IntToString(s[i].id)) == -1
  {
    var pathId := IntToString(s[i].id);
    forall j | 0 <= j < i ensures !IdMatches(s[j], pathId) {
      if IdMatches(s[j], pathId) {
        AtMostOneMatch(s, pathId, i, j);
      }
    }
    IndexOfIdIsFirstMatch(s, pathId, i);
    var t := s[..i] + s[i + 1..];
    forall j | 0 <= j < |t| ensures !IdMatches(t[j], pathId) {
      var k := if j < i then j else j + 1;
      RemovedAt(s, i, j);
      if IdMatches(s[k], pathId) {
        AtMostOneMatch(s, pathId, i, k);
      }
    }
  }
}
