/** The recorder's own code: each critical section is one step of the recorder protocol. */
module FileSinks {
  import opened PixelFormats
  import opened VideoFrames
  import opened I420Packing
  import opened Recorders

  class FileSink {
    var format: FileFormat
    var epochNs: int
    var running: bool
    var queue: seq<Packed>
    var built: bool
    var framesWritten: nat
    var framesDropped: nat
    /** The thread member, and whether the process has ended. */
    var writer: Writer
    var aborted: bool

    /** The rest of the protocol state: owner, attachment and history. */
    ghost var rest: Recorder

    ghost function State(): Recorder
      reads this
    {
      rest.(format := format, epochNs := epochNs, running := running, queue := queue, built := built,
            framesWritten := framesWritten, framesDropped := framesDropped, writer := writer, aborted := aborted)
    }

    constructor ()
      ensures State() == NEW_RECORDER
    {
      format, epochNs, running, queue, built := H264Mkv, 0, false, [], false;
      framesWritten, framesDropped, writer, aborted := 0, 0, NotStarted, false;
      rest := NEW_RECORDER;
    }

    /** A running recorder is left alone. Assigning to a thread that was never joined ends the
        process. */
    method Start(format: FileFormat, epochNs: int)
      modifies this
      ensures State() == Recorders.Start(old(State()), format, epochNs)
    {
      if running {
        return;
      }
      if !writer.NotStarted? && !writer.Joined? {
        aborted := true;
        return;
      }
      this.format, this.epochNs := format, epochNs;
      framesWritten, framesDropped := 0, 0;
      running := true;
      writer := Waiting;
      rest := Recorders.Start(old(State()), format, epochNs);
    }

    /** The destructor of a recorder that is not running: Stop does nothing, and a thread that was
        never joined ends the process. */
    method Destroy()
      requires !running && !State().owner.Joining? && !State().owner.Destroyed?
      modifies this
      ensures DestroyStep(old(State()), State())
    {
      var joined := Stop();
      if !writer.NotStarted? && !writer.Joined? {
        aborted := true;
        rest := old(rest);
      } else {
        rest := old(rest).(owner := Destroyed);
      }
    }

    /** OnFrame up to the lock: ignore, or make the private copy that will be queued. */
    method Prepare(f: VideoFrame) returns (p: Option<Packed>)
      requires Deliverable(f) && State().attached && State().pending.None?
      modifies this
      ensures BeginOnFrame(old(State()), State(), f)
      ensures p == State().pending
    {
      if !running || !f.Valid() {
        return None;
      }
      if format.PassthroughMkv? {
        if !IsCompressed(f.format) || f.dataSize == 0 {
          return None;
        }
        p := Some(Packed(f.format, f.width, f.height, f.ptsNs, f.data.value[..f.dataSize]));
      } else {
        if f.format != PixelFormat.I420 {
          return None;
        }
        var data := PackForFile(f);
        p := Some(Packed(f.format, f.width, f.height, f.ptsNs, data[..]));
      }
      rest := rest.(pending := p);
    }

    /** OnFrame under the lock. */
    method Enqueue(p: Packed)
      requires State().pending == Some(p)
      modifies this
      ensures FinishOnFrame(old(State()), State())
    {
      if |queue| >= MAX_QUEUE {
        framesDropped := framesDropped + 1;
        rest := rest.(pending := None, accepted := rest.accepted + 1);
        return;
      }
      queue := queue + [p];
      rest := rest.(pending := None, accepted := rest.accepted + 1, enqueued := rest.enqueued + [p]);
    }

    /** The writer's wait: a frame, or nothing more to come. */
    method Take() returns (p: Option<Packed>)
      requires State().writer.Waiting? && (|queue| > 0 || !running)
      modifies this
      ensures p.Some? ==> WriterTakes(old(State()), State()) && State().writer == Holding(p.value)
      ensures p.None? ==> WriterDrained(old(State()), State())
    {
      if |queue| == 0 && !running {
        built := false;
        writer := Exited(true);
        return None;
      }
      p := Some(queue[0]);
      queue := queue[1..];
      writer := Holding(p.value);
    }

    /** The writer with a frame in hand: `builds` and `accepts` are the pipeline's answers. */
    method Write(p: Packed, builds: bool, accepts: bool) returns (goOn: bool)
      requires State().writer == Holding(p)
      modifies this
      ensures goOn <==> old(built) || builds
      ensures goOn ==> WriterPushes(old(State()), State(), accepts)
      ensures !goOn ==> PipelineFails(old(State()), State())
    {
      if !built && !builds {
        running := false;
        writer := Exited(false);
        rest := rest.(processed := rest.processed + [Lost(p)]);
        return false;
      }
      built := true;
      if accepts {
        framesWritten := framesWritten + 1;
        rest := rest.(processed := rest.processed + [Written(p, FileTime(epochNs, p))]);
      } else {
        rest := rest.(processed := rest.processed + [Lost(p)]);
      }
      writer := Waiting;
      return true;
    }

    /** Stop's exchange: whether the caller goes on to join the writer. */
    method Stop() returns (joins: bool)
      requires !State().owner.Joining? && !State().owner.Destroyed?
      modifies this
      ensures StopBegins(old(State()), State())
      ensures joins == old(running)
    {
      joins := running;
      running := false;
      if joins {
        rest := rest.(owner := Joining);
      } else if rest.owner.Recording? {
        rest := rest.(owner := Stopped(false));
      }
    }
  }
}
