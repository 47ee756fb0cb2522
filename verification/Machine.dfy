/** The machine a run happens on. */
module Machine {
  import opened Names
  import opened Messages
  import opened Disk
  import opened FileSystem

  class Stream {
    var written: Bytes

    method WriteAll(data: Bytes)
      modifies this
      ensures written == old(written) + data
    {
      written := written + data;
    }
  }

  /** What can be seen of a machine. */
  datatype Moment = Moment(files: map<Path, Entry>, stdout: Bytes, stderr: Bytes, spawned: seq<seq<string>>)

  class Host {
    const files: Files
    const stdout: Stream
    const stderr: Stream

    /** The command lines of the processes started so far. */
    var spawned: seq<seq<string>>

    constructor (files: Files, stdout: Stream, stderr: Stream)
      ensures this.files == files && this.stdout == stdout && this.stderr == stderr && spawned == []
    {
      this.files, this.stdout, this.stderr := files, stdout, stderr;
      spawned := [];
    }

    ghost function Now(): Moment
      reads this, files, stdout, stderr
    {
      Moment(files.entries, stdout.written, stderr.written, spawned)
    }

    ghost predicate Valid()
      reads this, files
    {
      stdout != stderr && Rooted(files.entries)
    }
  }
}
