/** AlembicStorage: an archive handle that is either open or not, the frame
    count read when it was opened, and the read of one sample's scene. */
module Storage {
  import opened Wrappers
  import opened Failures
  import opened Xforms
  import opened ObjectTree
  import opened Scene
  import opened Walker

  type UInt32 = x: int | 0 <= x < 0x1_0000_0000

  /** An opened archive: the value of the top object's "1.samples" property
      when it has one, and the object hierarchy as each sample index
      selects it. */
  datatype Archive = Archive(samples: Option<UInt32>, top: UInt32 -> Node)

  /** The library hands out well-formed samples and the top object has no
      schema. */
  predicate WellFormedArchive(a: Archive) {
    forall i: UInt32 :: WellFormedNode(a.top(i)) && a.top(i).kind.OtherNode?
  }

  /** The frame count open stores: 1.samples, or 1 without it. */
  function FrameCountOf(a: Archive): UInt32 {
    if a.samples.Some? then a.samples.value else 1
  }

  /** What read(index) yields for an opened archive: the walk from the top
      object with an empty transform list. The top object has no parent;
      it is passed as its own, which nothing reads since it emits nothing. */
  function ReadScene(a: Archive, index: UInt32): Result<AlembicScene, Failure>
    requires WellFormedArchive(a)
  {
    var objects :- Walk(a.top(index), a.top(index), []);
    Ok(AlembicScene(objects))
  }

  /** A read yields one object per geometry object of the hierarchy, each
      with the product of its own transform list, and fails exactly when one
      of them cannot be built. */
  lemma ReadSceneFacts(a: Archive, index: UInt32)
    requires WellFormedArchive(a)
    ensures ReadScene(a, index).Err? <==> SomeEmitFails(a.top(index), a.top(index), [])
    ensures ReadScene(a, index).Ok? ==>
      var objects := ReadScene(a, index).value.objects;
      && |objects| == GeometryCount(a.top(index))
      && forall i :: 0 <= i < |objects| ==> objects[i].common.combinedXforms == Compose(objects[i].common.xforms)
  {
    var top := a.top(index);
    WalkFailsExactly(top, top, []);
    if ReadScene(a, index).Ok? {
      WalkCount(top, top, []);
      WalkCarries(top, top, []);
    }
  }

  class AlembicStorage {
    /** _frameCount. */
    var frameCount: UInt32
    /** _alembicArchive; None is the null pointer. */
    var archive: Option<Archive>

    predicate Valid()
      reads this
    {
      archive.Some? ==> WellFormedArchive(archive.value)
    }

    /** A storage starts unopened with frame count 0. */
    constructor ()
      ensures Valid()
      ensures frameCount == 0 && !IsOpened()
    {
      frameCount := 0;
      archive := None;
    }

    /** isOpened(). */
    function IsOpened(): bool
      reads this
    {
      archive.Some?
    }

    /** frameCount(). */
    function FrameCount(): UInt32
      reads this
    {
      frameCount
    }

    /** open(filePath, error_message). Opening the file is the reader
      parameter, standing for the archive library; its Err carries the
      exception's message. The old archive is released before the new one
      is opened, so a failed open leaves the storage unopened: it keeps the
      old frame count and sets error_message, which a successful open leaves
      alone. */
    method Open(filePath: string, errorMessage: string, reader: string -> Result<Archive, string>)
      returns (ok: bool, message: string)
      requires reader(filePath).Ok? ==> WellFormedArchive(reader(filePath).value)
      modifies this
      ensures Valid()
      ensures ok <==> reader(filePath).Ok?
      ensures ok ==> archive == Some(reader(filePath).value) && frameCount == FrameCountOf(reader(filePath).value) && message == errorMessage
      ensures !ok ==> !IsOpened() && frameCount == old(frameCount) && message == reader(filePath).error
    {
      archive := None;
      var attempt := reader(filePath);
      if attempt.Err? {
        return false, attempt.error;
      }
      archive := Some(attempt.value);
      if attempt.value.samples.Some? {
        frameCount := attempt.value.samples.value;
      } else {
        frameCount := 1;
      }
      return true, errorMessage;
    }

    /** read(index, error_message): nothing for an unopened storage, else
      the scene of the sample, or nothing and the failure that ended the
      walk. Nothing in the storage changes. */
    method Read(index: UInt32) returns (scene: Option<AlembicScene>, error: Option<Failure>)
      requires Valid()
      ensures !IsOpened() ==> scene.None? && error.None?
      ensures IsOpened() ==>
        (scene.Some? <==> ReadScene(archive.value, index).Ok?) &&
        (scene.Some? ==> scene.value == ReadScene(archive.value, index).value && error.None?) &&
        (scene.None? ==> error == Some(ReadScene(archive.value, index).error))
      ensures scene.Some? ==> |scene.value.objects| == GeometryCount(archive.value.top(index))
    {
      if archive.None? {
        return None, None;
      }
      var top := archive.value.top(index);
      var walked := ParseObject(top, top, [], []);
      if walked.Err? {
        return None, Some(walked.error);
      }
      assert [] + Walk(top, top, []).value == Walk(top, top, []).value;
      WalkCount(top, top, []);
      return Some(AlembicScene(walked.value)), None;
    }
  }
}
