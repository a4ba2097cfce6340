/**
 * Song records, request bodies, and the functions the handlers use to search
 * the repertoire: `find` on the (titulo, artista, tono) triple, `findIndex`
 * on the id text, and the maximum id that `getMaxId` computes.
 */
module Songs {
  import opened Wrappers
  import opened NumberText

  datatype Song = Song(id: int, titulo: string, artista: string, tono: string)

  /** The three fields of a request body, each possibly absent. */
  datatype Payload = Payload(titulo: Option<string>, artista: Option<string>, tono: Option<string>)

  /** A string field is truthy exactly when it is present and not the empty string. */
  predicate Truthy(field: Option<string>) {
    field.Some? && field.value != ""
  }

  /** The body check shared by create and update: every field truthy. */
  predicate IsValidPayload(body: Payload): (ok: bool)
    ensures !ok <==> || body.titulo == None || body.titulo == Some("")
                     || body.artista == None || body.artista == Some("")
                     || body.tono == None || body.tono == Some("")
  {
    Truthy(body.titulo) && Truthy(body.artista) && Truthy(body.tono)
  }

  predicate SameTriple(song: Song, titulo: string, artista: string, tono: string) {
    song.titulo == titulo && song.artista == artista && song.tono == tono
  }

  /** A path id selects a song when it equals the song's id rendered as text. */
  predicate IdMatches(song: Song, pathId: string) {
    IntToString(song.id) == pathId
  }

  /** `find` with the triple predicate: the first song with this exact triple, if any. */
  function FindTriple(s: seq<Song>, titulo: string, artista: string, tono: string): (r: Option<Song>)
    ensures r.None? <==> forall j :: 0 <= j < |s| ==> !SameTriple(s[j], titulo, artista, tono)
    ensures r.Some? ==> exists i :: 0 <= i < |s| && s[i] == r.value && SameTriple(s[i], titulo, artista, tono)
                                       && forall j :: 0 <= j < i ==> !SameTriple(s[j], titulo, artista, tono)
    decreases |s|
  {
    if s == [] then None
    else if SameTriple(s[0], titulo, artista, tono) then Some(s[0])
    else
      var r := FindTriple(s[1..], titulo, artista, tono);
      assert forall j :: 1 <= j < |s| ==> s[j] == s[1..][j - 1];
      r
  }

  /** `findIndex` with the id predicate: the index of the first match, or -1. */
  function IndexOfId(s: seq<Song>, pathId: string): (k: int)
    ensures -1 <= k < |s|
    ensures k == -1 <==> forall j :: 0 <= j < |s| ==> !IdMatches(s[j], pathId)
    ensures k >= 0 ==> IdMatches(s[k], pathId) && forall j :: 0 <= j < k ==> !IdMatches(s[j], pathId)
    decreases |s|
  {
    if s == [] then -1
    else if IdMatches(s[0], pathId) then 0
    else
      var k := IndexOfId(s[1..], pathId);
      assert forall j :: 1 <= j < |s| ==> s[j] == s[1..][j - 1];
      if k == -1 then -1 else k + 1
  }

  /**
   * The value `getMaxId` returns: the largest id met by a scan that starts
   * from 0 and replaces the running value by any larger id.
   */
  function MaxIdOf(s: seq<Song>): (m: int)
    ensures m >= 0
    ensures forall i :: 0 <= i < |s| ==> s[i].id <= m
    ensures m == 0 || exists i :: 0 <= i < |s| && s[i].id == m
    decreases |s|
  {
    if s == [] then 0
    else
      var prior := MaxIdOf(s[..|s| - 1]);
      assert forall i :: 0 <= i < |s| - 1 ==> s[i] == s[..|s| - 1][i];
      if s[|s| - 1].id > prior then s[|s| - 1].id else prior
  }

  /** The repertoire after the three text fields of song i are overwritten. */
  function Retitled(s: seq<Song>, i: int, titulo: string, artista: string, tono: string): (r: seq<Song>)
    requires 0 <= i < |s|
    ensures |r| == |s| && r[i].id == s[i].id
    ensures SameTriple(r[i], titulo, artista, tono)
    ensures forall j :: 0 <= j < |s| && j != i ==> r[j] == s[j]
  {
    s[i := s[i].(titulo := titulo, artista := artista, tono := tono)]
  }

  predicate IdsUnique(s: seq<Song>) {
    forall i, j :: 0 <= i < j < |s| ==> s[i].id != s[j].id
  }

  predicate TriplesUnique(s: seq<Song>) {
    forall i, j :: 0 <= i < j < |s| ==> !SameTriple(s[j], s[i].titulo, s[i].artista, s[i].tono)
  }

  predicate FieldsFilled(s: seq<Song>) {
    forall i :: 0 <= i < |s| ==> s[i].titulo != "" && s[i].artista != "" && s[i].tono != ""
  }

  /** What the service keeps true of the songs it stores itself. */
  predicate Wellformed(s: seq<Song>) {
    IdsUnique(s) && TriplesUnique(s) && FieldsFilled(s)
  }
}
