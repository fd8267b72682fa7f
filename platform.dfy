/**
 * The operating system as the launcher sees it: the process table
 * (`psutil.process_iter`), `os.path.exists`, `os.startfile`, `time.sleep` and
 * the Shell's Programs folder (`Shell.Application` namespace 2). Each is an
 * oracle; `trace` records the requests in order.
 */
module Platform {

  /** One request made of the operating system. */
  datatype Event =
    | Sleep(seconds: int)      // time.sleep(seconds)
    | ScanProcesses            // one pass over psutil.process_iter()
    | Probe(path: string)      // os.path.exists(path)
    | StartFile(path: string)  // os.startfile(path)
    | ShellQuery               // Shell.Application namespace(2).self.path

  class Machine {
    /** Every request made so far, oldest first. */
    var trace: seq<Event>
    /** Number of process scans so far. */
    var scans: nat
    /** The process names seen by the n-th scan (counting from 0). */
    const processTable: nat -> seq<string>
    const pathExists: string -> bool
    /** Whether `os.startfile` raises `OSError` for a path. */
    const startFileRaises: string -> bool
    /** The Windows Programs folder of the Start Menu. */
    const programsFolder: string

    constructor (processTable: nat -> seq<string>, pathExists: string -> bool, startFileRaises: string -> bool, programsFolder: string)
      ensures this.processTable == processTable && this.pathExists == pathExists
      ensures this.startFileRaises == startFileRaises && this.programsFolder == programsFolder
      ensures trace == [] && scans == 0
    {
      this.processTable := processTable;
      this.pathExists := pathExists;
      this.startFileRaises := startFileRaises;
      this.programsFolder := programsFolder;
      trace := [];
      scans := 0;
    }

    method SleepFor(seconds: int)
      modifies this
      ensures trace == old(trace) + [Sleep(seconds)] && scans == old(scans)
    {
      trace := trace + [Sleep(seconds)];
    }

    method ProcessNames() returns (names: seq<string>)
      modifies this
      ensures names == processTable(old(scans))
      ensures trace == old(trace) + [ScanProcesses] && scans == old(scans) + 1
    {
      names := processTable(scans);
      trace := trace + [ScanProcesses];
      scans := scans + 1;
    }

    method Exists(path: string) returns (exists_: bool)
      modifies this
      ensures exists_ == pathExists(path)
      ensures trace == old(trace) + [Probe(path)] && scans == old(scans)
    {
      exists_ := pathExists(path);
      trace := trace + [Probe(path)];
    }

    /** `os.startfile(path)`; `raised` stands for the `OSError`. */
    method StartFileAt(path: string) returns (raised: bool)
      modifies this
      ensures raised == startFileRaises(path)
      ensures trace == old(trace) + [StartFile(path)] && scans == old(scans)
    {
      raised := startFileRaises(path);
      trace := trace + [StartFile(path)];
    }

    method ProgramsFolder() returns (folder: string)
      modifies this
      ensures folder == programsFolder
      ensures trace == old(trace) + [ShellQuery] && scans == old(scans)
    {
      folder := programsFolder;
      trace := trace + [ShellQuery];
    }
  }
}
