/**
 * Loading the threat-intelligence IP lists into the block list: three list
 * files, read in a fixed order, each of whose non-empty lines maps to that
 * file's threat level; a later file overrides an earlier one.
 */
module ThreatIntel {
  import opened Wrappers

  /** The list files, in the order they are read. */
  const Files: seq<string> := ["ip_level1.list", "ip_level2.list", "ip_level3.list"]
  /** The directory the files are opened in. */
  const Dir := "/app"

  /** The threat level a list file assigns; "" for a file outside the three. */
  function LevelOf(file: string): string {
    if file == "ip_level1.list" then "Low"
    else if file == "ip_level2.list" then "Medium"
    else if file == "ip_level3.list" then "High"
    else ""
  }

  /** `filepath.Join` of the directory and a plain file name. */
  function PathOf(file: string): string {
    Dir + "/" + file
  }

  /** The lines of every file that can be opened, by path; a path that is absent cannot be opened. */
  type Disk = map<string, seq<string>>

  /** The block list after storing each non-empty line with `level`, in order. */
  function AddLines(m: map<string, string>, lines: seq<string>, level: string): map<string, string> {
    if lines == [] then m
    else
      var before := AddLines(m, lines[..|lines| - 1], level);
      var element := lines[|lines| - 1];
      if element == "" then before else before[element := level]
  }

  /** The block list after reading `files` in order; a file that cannot be opened adds nothing. */
  function LoadFiles(m: map<string, string>, files: seq<string>, disk: Disk): map<string, string> {
    if files == [] then m
    else
      var before := LoadFiles(m, files[..|files| - 1], disk);
      var file := files[|files| - 1];
      if PathOf(file) in disk then AddLines(before, disk[PathOf(file)], LevelOf(file)) else before
  }

  /** The level of the last readable file among `files` that lists `ip`, if any. */
  function LastLevel(ip: string, files: seq<string>, disk: Disk): Option<string> {
    if files == [] then None
    else
      var file := files[|files| - 1];
      if PathOf(file) in disk && ip in disk[PathOf(file)] then Some(LevelOf(file))
      else LastLevel(ip, files[..|files| - 1], disk)
  }

  /**
   * Reading one file's lines: every non-empty line (verbatim, spaces included) ends
   * with the file's level; exactly-empty lines and keys not listed keep their entry.
   */
  lemma {:induction false} AddLinesEffect(m: map<string, string>, lines: seq<string>, level: string, k: string)
    ensures k in AddLines(m, lines, level) <==> k in m || (k != "" && k in lines)
    ensures k != "" && k in lines ==> AddLines(m, lines, level)[k] == level
    ensures (k == "" || k !in lines) && k in m ==> AddLines(m, lines, level)[k] == m[k]
  {
    if lines != [] {
      var prefix := lines[..|lines| - 1];
      AddLinesEffect(m, prefix, level, k);
      assert lines == prefix + [lines[|lines| - 1]];
    }
  }

  /**
   * After reading the files in order, a non-empty IP has the level of the last
   * readable file that lists it; an IP that no readable file lists, and the empty
   * key, keep whatever the block list held before.
   */
  lemma {:induction false} LoadFilesEffect(m: map<string, string>, files: seq<string>, disk: Disk, ip: string)
    ensures ip != "" && LastLevel(ip, files, disk).Some? ==>
              ip in LoadFiles(m, files, disk) && LoadFiles(m, files, disk)[ip] == LastLevel(ip, files, disk).value
    ensures ip == "" || LastLevel(ip, files, disk).None? ==>
              (ip in LoadFiles(m, files, disk) <==> ip in m) &&
              (ip in m ==> LoadFiles(m, files, disk)[ip] == m[ip])
  {
    if files != [] {
      var prefix := files[..|files| - 1];
      var file := files[|files| - 1];
      LoadFilesEffect(m, prefix, disk, ip);
      if PathOf(file) in disk {
        AddLinesEffect(LoadFiles(m, prefix, disk), disk[PathOf(file)], LevelOf(file), ip);
      }
    }
  }

  /** The three files carry the levels Low, Medium and High, in that order. */
  lemma FileLevels()
    ensures |Files| == 3
    ensures LevelOf(Files[0]) == "Low" && LevelOf(Files[1]) == "Medium" && LevelOf(Files[2]) == "High"
  {
  }

  /** An IP listed in the level-3 file, when that file can be read, ends up "High" whatever the other files say. */
  lemma HighestFileWins(m: map<string, string>, disk: Disk, ip: string)
    requires ip != "" && PathOf(Files[2]) in disk && ip in disk[PathOf(Files[2])]
    ensures ip in LoadFiles(m, Files, disk) && LoadFiles(m, Files, disk)[ip] == "High"
  {
    LoadFilesEffect(m, Files, disk, ip);
  }

  /** The in-memory block list: IP to threat level. */
  class Feeds {
    var blockList: map<string, string>

    constructor (blockList: map<string, string>)
      ensures this.blockList == blockList
    {
      this.blockList := blockList;
    }

    /** `Load`: reads the three list files in order into the block list. */
    method Load(disk: Disk)
      modifies this
      ensures blockList == LoadFiles(old(blockList), Files, disk)
    {
      var i := 0;
      while i < |Files|
        invariant 0 <= i <= |Files|
        invariant blockList == LoadFiles(old(blockList), Files[..i], disk)
      {
        var file := Files[i];
        assert Files[..i + 1][..i] == Files[..i];
        var t := LevelOf(file);
        var path := PathOf(file);
        if path !in disk {
          i := i + 1;
          continue;
        }
        var lines := disk[path];
        ghost var before := blockList;
        var j := 0;
        while j < |lines|
          invariant 0 <= j <= |lines|
          invariant blockList == AddLines(before, lines[..j], t)
        {
          assert lines[..j + 1][..j] == lines[..j];
          var element := lines[j];
          if element != "" {
            blockList := blockList[element := t];
          }
          j := j + 1;
        }
        assert lines[..j] == lines;
        i := i + 1;
      }
      assert Files[..i] == Files;
    }
  }
}
