/**
 * The repertoire service: the module-level `repertorio` array and the
 * handlers of GET, POST, PUT and DELETE on /canciones. Writing the file
 * repertorio.json is modelled by the ghost snapshot `persisted`, assigned the
 * whole collection wherever the handlers write it.
 */
module Service {
  import opened Wrappers
  import opened NumberText
  import opened Songs
  import Laws

  /** What a handler answers; the HTTP status of each is given by StatusCode. */
  datatype Response =
    | Created(song: Song)
    | Updated(song: Song)
    | Deleted(id: string)
    | InvalidBody
    | AlreadyExists
    | NotFound

  function StatusCode(r: Response): (code: int)
    ensures code == 201 <==> r.Created?
    ensures code == 200 <==> r.Updated? || r.Deleted?
    ensures code == 400 <==> r.InvalidBody? || r.AlreadyExists?
    ensures code == 404 <==> r.NotFound?
  {
    match r
    case Created(_) => 201
    case Updated(_) => 200
    case Deleted(_) => 200
    case InvalidBody => 400
    case AlreadyExists => 400
    case NotFound => 404
  }

  class Repertoire {
    /** The in-memory repertoire, in insertion order. */
    var songs: seq<Song>
    /** The contents of the persisted store as last written. */
    ghost var persisted: seq<Song>

    /** The store holds exactly the in-memory collection. */
    ghost predicate Synced()
      reads this
    {
      persisted == songs
    }

    /** The collection as loaded at start-up from the persisted store. */
    constructor (loaded: seq<Song>)
      ensures songs == loaded && Synced()
    {
      songs := loaded;
      persisted := loaded;
    }

    /** GET /canciones: the whole collection, as it is. */
    method List() returns (all: seq<Song>)
      ensures all == songs
    {
      all := songs;
    }

    /** getMaxId: a scan from 0 that keeps the largest id seen. */
    method GetMaxId() returns (maxId: int)
      ensures maxId == MaxIdOf(songs)
    {
      maxId := 0;
      for i := 0 to |songs|
        invariant maxId == MaxIdOf(songs[..i])
      {
        assert songs[..i + 1][..i] == songs[..i];
        if songs[i].id > maxId {
          maxId := songs[i].id;
        }
      }
      assert songs[..|songs|] == songs;
    }

    /** POST /canciones. */
    method Create(body: Payload) returns (r: Response)
      modifies this
      ensures !IsValidPayload(body) ==> r == InvalidBody && unchanged(this)
      ensures IsValidPayload(body) && FindTriple(old(songs), body.titulo.value, body.artista.value, body.tono.value).Some? ==>
                r == AlreadyExists && unchanged(this)
      ensures IsValidPayload(body) && FindTriple(old(songs), body.titulo.value, body.artista.value, body.tono.value).None? ==>
                && r == Created(Song(MaxIdOf(old(songs)) + 1, body.titulo.value, body.artista.value, body.tono.value))
                && songs == old(songs) + [r.song]
                && persisted == songs
    {
      if !IsValidPayload(body) {
        return InvalidBody;
      }
      var titulo, artista, tono := body.titulo.value, body.artista.value, body.tono.value;
      var existing := FindTriple(songs, titulo, artista, tono);
      if existing.Some? {
        return AlreadyExists;
      }
      var maxId := GetMaxId();
      var song := Song(maxId + 1, titulo, artista, tono);
      songs := songs + [song];
      persisted := songs;
      r := Created(song);
    }

    /** PUT /canciones/:id, where `id` is the text of the path segment. */
    method Update(id: string, body: Payload) returns (r: Response)
      modifies this
      ensures !IsValidPayload(body) ==> r == InvalidBody && unchanged(this)
      ensures IsValidPayload(body) && IndexOfId(old(songs), id) == -1 ==> r == NotFound && unchanged(this)
      ensures IsValidPayload(body) && IndexOfId(old(songs), id) >= 0 ==>
                var i := IndexOfId(old(songs), id);
                && songs == Retitled(old(songs), i, body.titulo.value, body.artista.value, body.tono.value)
                && r == Updated(songs[i])
                && persisted == songs
    {
      if !IsValidPayload(body) {
        return InvalidBody;
      }
      var index := IndexOfId(songs, id);
      if index != -1 {
        var song := songs[index].(titulo := body.titulo.value, artista := body.artista.value, tono := body.tono.value);
        songs := songs[index := song];
        persisted := songs;
        r := Updated(songs[index]);
      } else {
        r := NotFound;
      }
    }

    /** DELETE /canciones/:id, where `id` is the text of the path segment. */
    method Delete(id: string) returns (r: Response)
      modifies this
      ensures IndexOfId(old(songs), id) == -1 ==> r == NotFound && unchanged(this)
      ensures IndexOfId(old(songs), id) >= 0 ==>
                var i := IndexOfId(old(songs), id);
                && songs == old(songs)[..i] + old(songs)[i + 1..]
                && |songs| == |old(songs)| - 1
                && r == Deleted(id)
                && persisted == songs
    {
      var index := IndexOfId(songs, id);
      if index != -1 {
        songs := songs[..index] + songs[index + 1..];
        persisted := songs;
        r := Deleted(id);
      } else {
        r := NotFound;
      }
    }
  }

  /**
   * A client of the specifications: starting from an empty store, create a
   * song, then try a duplicate and a body with a field missing.
   */
  method CreateSession() {
    var rep := new Repertoire([]);
    var r := rep.Create(Payload(Some("Imagine"), Some("Lennon"), Some("C")));
    assert r == Created(Song(1, "Imagine", "Lennon", "C"));
    assert StatusCode(r) == 201;

    r := rep.Create(Payload(Some("Imagine"), Some("Lennon"), Some("C")));
    assert r == AlreadyExists;
    r := rep.Create(Payload(Some("Imagine"), None, Some("C")));
    assert r == InvalidBody && rep.songs == [Song(1, "Imagine", "Lennon", "C")];
  }

  /**
   * A client of the specifications: revise the artist of song 1 through its
   * id text, miss with a text that is no id, delete it, and list.
   */
  method UpdateDeleteSession() {
    var rep := new Repertoire([Song(1, "Imagine", "Lennon", "C")]);
    assert IntToString(1) == "1";
    var r := rep.Update("1", Payload(Some("Imagine"), Some("John Lennon"), Some("C")));
    assert r == Updated(Song(1, "Imagine", "John Lennon", "C"));

    r := rep.Update("x1", Payload(Some("Imagine"), Some("John Lennon"), Some("C")));
    assert r == NotFound;

    r := rep.Delete("1");
    assert r == Deleted("1") && StatusCode(r) == 200;
    var all := rep.List();
    assert all == [] && rep.Synced();

    r := rep.Delete("1");
    assert r == NotFound && StatusCode(r) == 404;
  }

  /** A client: deleting the newest song makes the next create reissue its id. */
  method ReuseSession(loaded: seq<Song>, first: Payload, second: Payload) {
    var rep := new Repertoire(loaded);
    var r := rep.Create(first);
    if r.Created? {
      var n := r.song;
      Laws.CreateAfterDeleteReusesId(loaded, n);
      var d := rep.Delete(IntToString(n.id));
      assert rep.songs == loaded;
      var r2 := rep.Create(second);
      assert r2.Created? ==> r2.song.id == n.id;
    }
  }

  /** What every handler keeps: ids unique and fields filled, with the store in step. */
  ghost predicate Kept(rep: Repertoire)
    reads rep
  {
    IdsUnique(rep.songs) && FieldsFilled(rep.songs) && rep.Synced()
  }

  /** A client: create keeps Kept, whatever the body. */
  method CreateKeeps(rep: Repertoire, body: Payload)
    requires Kept(rep)
    modifies rep
    ensures Kept(rep)
  {
    Laws.CreatePreservesWellformed(rep.songs, body.titulo.GetOr(""), body.artista.GetOr(""), body.tono.GetOr(""));
    var r := rep.Create(body);
  }

  /** A client: update keeps Kept, though it may break triple uniqueness. */
  method UpdateKeeps(rep: Repertoire, id: string, body: Payload)
    requires Kept(rep)
    modifies rep
    ensures Kept(rep)
  {
    var i := IndexOfId(rep.songs, id);
    if 0 <= i {
      Laws.UpdatePreservesIds(rep.songs, i, body.titulo.GetOr(""), body.artista.GetOr(""), body.tono.GetOr(""), id);
    }
    var r := rep.Update(id, body);
  }

  /** A client: delete keeps Kept. */
  method DeleteKeeps(rep: Repertoire, id: string)
    requires Kept(rep)
    modifies rep
    ensures Kept(rep)
  {
    var i := IndexOfId(rep.songs, id);
    if 0 <= i {
      Laws.DeletePreservesWellformed(rep.songs, i);
    }
    var r := rep.Delete(id);
  }
}
