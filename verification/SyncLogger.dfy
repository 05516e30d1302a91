// utils/FileUtil.h (FileWriter) and logger/SyncLogger.cpp, in their own form:
// objects whose methods update them in place.
module SyncLogging {
  import opened LogFiles

  class FileSystem {
    var files: Disk

    constructor (files: Disk)
      ensures this.files == files
    {
      this.files := files;
    }
  }

  class FileWriter {
    const path: string
    var isOpen: bool
    var size: int

    constructor (path: string)
      ensures this.path == path && !isOpen && size == -1
    {
      this.path := path;
      isOpen, size := false, -1;
    }

    function View(fs: FileSystem): Log
      reads this, fs
    {
      Log(fs.files, path, isOpen, size)
    }

    method Open(fs: FileSystem)
      requires Usable(View(fs))
      modifies this, fs
      ensures View(fs) == Opened(old(View(fs)))
    {
      if isOpen {
        return;
      }
      if path !in fs.files {
        fs.files := fs.files[path := ""];
      }
      isOpen := true;
      size := |fs.files[path]|;
    }

    method Append(fs: FileSystem, data: string)
      requires Usable(View(fs))
      modifies this, fs
      ensures View(fs) == Appended(old(View(fs)), data)
    {
      if !isOpen {
        Open(fs);
      }
      fs.files := fs.files[path := fs.files[path] + data];
      size := size + |data|;
    }

    method Rename(fs: FileSystem, target: string)
      requires Usable(View(fs))
      modifies fs
      ensures fs.files == if isOpen then Moved(old(fs.files), path, target) else old(fs.files)
    {
      if !isOpen {
        return;
      }
      fs.files := (fs.files - {path})[target := fs.files[path]];
    }
  }

  class SyncLogger {
    const fs: FileSystem
    var file: FileWriter

    ghost predicate Valid()
      reads this, fs, file
    {
      Usable(file.View(fs)) && file.isOpen
    }

    function View(): Log
      reads this, fs, file
    {
      file.View(fs)
    }

    constructor (fs: FileSystem, path: string)
      modifies fs
      ensures Valid() && this.fs == fs && fresh(file)
      ensures View() == Opened(Log(old(fs.files), path, false, -1))
    {
      this.fs := fs;
      file := new FileWriter(path);
      new;
      file.Open(fs);
    }

    // `target` is the name the clock gives the finished file if this call rotates.
    method Append(data: string, target: string)
      requires Valid()
      modifies this, fs, file
      ensures Valid()
      ensures View() == Submitted(old(View()), Call(data, target))
      ensures file == old(file) || fresh(file)
    {
      if |data| > MAX_FILE_SIZE {
        return;
      }
      if file.size == 0 {
        file.Append(fs, HEADER);
      } else if file.size > MAX_FILE_SIZE {
        file.Rename(fs, target);
        file := new FileWriter(LOG_PATH);
        file.Append(fs, HEADER);
      }
      file.Append(fs, data);
    }
  }
}
