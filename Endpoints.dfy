/**
 * The parts of the HTTP handlers (main.py) that compute something of their
 * own: the emoji reaction counters that `add_reaction` and `remove_reaction`
 * update on a fetched message, and the names `register` derives for a
 * profile picture. Routing, storage, hashing and file I/O stay outside.
 */
module Endpoints {
  import opened Wrappers
  import opened Text
  import opened Models

  /** The body every handler answers with. */
  datatype Response = Response(message: string, ok: bool)

  /** A handler's result: a response, or an `HTTPException` with status and detail. */
  datatype HttpOutcome = Answered(response: Response) | HttpError(status: int, detail: string)

  // ---------------------------------------------------------------------------
  // Reaction counters

  /** The state both reaction handlers maintain: every stored count is at least 1. */
  predicate AllPositive(counts: map<string, int>)
  {
    forall k :: k in counts ==> counts[k] >= 1
  }

  /** The counters after one more `reaction`: incremented, or inserted at 1. */
  function Added(counts: map<string, int>, reaction: string): map<string, int>
  {
    if reaction in counts then counts[reaction := counts[reaction] + 1]
    else counts[reaction := 1]
  }

  /**
   * The counters after one `reaction` is withdrawn: an absent key is left
   * alone; a present count drops by one, not below zero, and the key is
   * deleted once it reaches zero.
   */
  function Removed(counts: map<string, int>, reaction: string): map<string, int>
  {
    if reaction !in counts then counts
    else
      var n := if counts[reaction] - 1 > 0 then counts[reaction] - 1 else 0;
      if n == 0 then counts - {reaction} else counts[reaction := n]
  }

  /** Adding raises a present count by exactly one and inserts an absent one at 1. */
  lemma AddedCount(counts: map<string, int>, reaction: string)
    ensures var r := Added(counts, reaction);
      && reaction in r
      && (reaction in counts ==> r[reaction] == counts[reaction] + 1)
      && (reaction !in counts ==> r[reaction] == 1)
  {
  }

  /** Removing leaves the map alone when the key is absent. */
  lemma RemovedAbsent(counts: map<string, int>, reaction: string)
    requires reaction !in counts
    ensures Removed(counts, reaction) == counts
  {
  }

  /**
   * Removing a present key lowers its count by one, floored at zero; the key
   * stays exactly when the lowered count is positive, so it never maps to 0.
   */
  lemma RemovedCount(counts: map<string, int>, reaction: string)
    requires reaction in counts
    ensures var r := Removed(counts, reaction);
      && (reaction in r <==> counts[reaction] > 1)
      && (reaction in r ==> r[reaction] == counts[reaction] - 1 && r[reaction] >= 1)
  {
  }

  /** Both operations change no key other than the one requested. */
  lemma OnlyRequestedKeyChanges(counts: map<string, int>, reaction: string, other: string)
    requires other != reaction
    ensures var a := Added(counts, reaction);
      (other in a <==> other in counts) && (other in counts ==> a[other] == counts[other])
    ensures var r := Removed(counts, reaction);
      (other in r <==> other in counts) && (other in counts ==> r[other] == counts[other])
  {
  }

  /** Both operations keep every count at least 1. */
  lemma ReactionsStayPositive(counts: map<string, int>, reaction: string)
    requires AllPositive(counts)
    ensures AllPositive(Added(counts, reaction))
    ensures AllPositive(Removed(counts, reaction))
  {
  }

  /** Adding a reaction that was absent and then removing it restores the counters. */
  lemma AddThenRemove(counts: map<string, int>, reaction: string)
    requires reaction !in counts
    ensures Removed(Added(counts, reaction), reaction) == counts
  {
    assert Added(counts, reaction) - {reaction} == counts;
  }

  /**
   * When every count is positive, removing undoes adding and adding undoes
   * removing a present reaction.
   */
  lemma AddRemoveInverse(counts: map<string, int>, reaction: string)
    requires AllPositive(counts)
    ensures Removed(Added(counts, reaction), reaction) == counts
    ensures reaction in counts ==> Added(Removed(counts, reaction), reaction) == counts
  {
    if reaction !in counts {
      AddThenRemove(counts, reaction);
    } else {
      assert Removed(Added(counts, reaction), reaction) == counts[reaction := counts[reaction]];
      if counts[reaction] == 1 {
        assert (counts - {reaction})[reaction := 1] == counts;
      }
    }
  }

  /**
   * The message object `dl.get_message` hands to a handler; the handlers
   * change its reactions in place (and never store it back).
   */
  class FetchedMessage {
    var message: Message

    constructor (m: Message)
      ensures message == m
    {
      message := m;
    }

    /** `message.reactions[reaction] += 1`, or insert 1 for a new reaction. */
    method AddReaction(reaction: string)
      modifies this
      ensures message == old(message).(reactions := Added(old(message.reactions), reaction))
    {
      var reactions := message.reactions;
      if reaction in reactions {
        reactions := reactions[reaction := reactions[reaction] + 1];
      } else {
        reactions := reactions[reaction := 1];
      }
      message := message.(reactions := reactions);
    }

    /** Decrement floored at 0, then `del` the key when it reached 0. */
    method RemoveReaction(reaction: string)
      modifies this
      ensures message == old(message).(reactions := Removed(old(message.reactions), reaction))
    {
      var reactions := message.reactions;
      if reaction in reactions {
        var n := reactions[reaction] - 1;
        reactions := reactions[reaction := if n > 0 then n else 0];
        if reactions[reaction] == 0 {
          reactions := reactions - {reaction};
        }
      }
      message := message.(reactions := reactions);
    }
  }

  const NotFound := HttpError(404, "Message not found")

  /**
   * `add_reaction`: 404 with nothing changed when the message id is unknown
   * (`found` is null), otherwise one more of `reaction` on the message.
   */
  method AddReactionHandler(found: FetchedMessage?, reaction: string) returns (out: HttpOutcome)
    modifies found
    ensures found == null ==> out == NotFound
    ensures found != null ==> out == Answered(Response("Reaction added", true))
    ensures found != null ==>
      found.message == old(found.message).(reactions := Added(old(found.message.reactions), reaction))
  {
    if found == null {
      return NotFound;
    }
    found.AddReaction(reaction);
    out := Answered(Response("Reaction added", true));
  }

  /**
   * `remove_reaction`: 404 with nothing changed when the message id is
   * unknown, otherwise one fewer of `reaction` on the message.
   */
  method RemoveReactionHandler(found: FetchedMessage?, reaction: string) returns (out: HttpOutcome)
    modifies found
    ensures found == null ==> out == NotFound
    ensures found != null ==> out == Answered(Response("Reaction removed", true))
    ensures found != null ==>
      found.message == old(found.message).(reactions := Removed(old(found.message.reactions), reaction))
  {
    if found == null {
      return NotFound;
    }
    found.RemoveReaction(reaction);
    out := Answered(Response("Reaction removed", true));
  }

  // ---------------------------------------------------------------------------
  // Profile picture names in `register`

  const PicturesDir := "pictures/"
  const PictureUrlPrefix := "http://venus:8080/get_picture?picture_url="

  /** `filename.split(".")[-1]`: the text after the last dot, or the whole name. */
  function Extension(uploadName: string): string
  {
    LastPiece(uploadName, '.')
  }

  /** `f"{username}_profile.{file_extension}"` */
  function PictureFilename(username: string, uploadName: string): string
  {
    username + "_profile." + Extension(uploadName)
  }

  /** `f"pictures/{picture_filename}"`: where the upload is written. */
  function PicturePath(username: string, uploadName: string): string
  {
    PicturesDir + PictureFilename(username, uploadName)
  }

  /** The URL stored as the new user's profile picture. */
  function PictureUrl(username: string, uploadName: string): string
  {
    PictureUrlPrefix + PictureFilename(username, uploadName)
  }

  /** `get_picture`: the file served for the `picture_url` query parameter. */
  function ServedPath(pictureUrl: string): string
  {
    PicturesDir + pictureUrl
  }

  /**
   * The extension is the dot-free tail of the upload name: the whole name
   * when it has no dot, and otherwise what follows its last dot.
   */
  lemma ExtensionIsTextAfterLastDot(uploadName: string)
    ensures var ext := Extension(uploadName);
      && '.' !in ext
      && |ext| <= |uploadName| && uploadName[|uploadName| - |ext|..] == ext
      && ('.' !in uploadName ==> ext == uploadName)
      && ('.' in uploadName ==> uploadName[|uploadName| - |ext| - 1] == '.')
  {
    LastPieceIsFinalSegment(uploadName, '.');
  }

  /** The extension of the stored file name is again the upload's extension. */
  lemma PicturePathShape(username: string, uploadName: string)
    ensures Extension(PictureFilename(username, uploadName)) == Extension(uploadName)
  {
    ExtensionIsTextAfterLastDot(uploadName);
    var ext := Extension(uploadName);
    assert username + "_profile." + ext == (username + "_profile") + ['.'] + ext;
    LastPieceAfterSeparator(username + "_profile", '.', ext);
  }

  /**
   * Serving the stored URL's query value reads back the file that
   * registration wrote.
   */
  lemma StoredUrlServesWrittenFile(username: string, uploadName: string)
    ensures var url := PictureUrl(username, uploadName);
      && url[..|PictureUrlPrefix|] == PictureUrlPrefix
      && ServedPath(url[|PictureUrlPrefix|..]) == PicturePath(username, uploadName)
  {
    var url := PictureUrl(username, uploadName);
    assert url[|PictureUrlPrefix|..] == PictureFilename(username, uploadName);
  }

  /** What `register` produces once storage has answered. */
  datatype Registration = Registration(filePath: string, user: User, response: Response, fileKept: bool)

  /**
   * `register`: the picture goes to `PicturePath`, the user is created with
   * the hashed password and the picture URL; if storage refuses the user
   * (`added` is false) the file is deleted again and the answer says the user
   * exists. The hash, the fresh id and the clock are parameters.
   */
  function Register(username: string, hashedPassword: string, uploadName: string,
                    id: string, createdAt: string, added: bool): (r: Registration)
    ensures r.filePath == "pictures/" + username + "_profile." + Extension(uploadName)
    ensures r.user.username == username && r.user.password == hashedPassword
    ensures r.user.token == "" && r.user.status == Offline
    ensures r.user.profilePicture == PictureUrl(username, uploadName)
    ensures r.fileKept == added && r.response.ok == added
  {
    PicturePathShape(username, uploadName);
    var user := CreateUser(id, createdAt, username, hashedPassword, PictureUrl(username, uploadName));
    if added then
      Registration(PicturePath(username, uploadName), user, Response("User registered successfully", true), true)
    else
      Registration(PicturePath(username, uploadName), user, Response("User already exists", false), false)
  }
}
