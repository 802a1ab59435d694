/**
 * The part of the file system the scaffolder touches: `fs.mkdirSync` with
 * `{ recursive: true }` and `fs.writeFileSync` (index.js:111, 123).
 */
module Files {
  import opened Paths

  /** Existing directories and file contents, both keyed by path. */
  class FileSystem {
    var files: map<string, string>
    var dirs: set<string>

    constructor (files0: map<string, string>, dirs0: set<string>)
      ensures files == files0 && dirs == dirs0
    {
      files := files0;
      dirs := dirs0;
    }

    /** Creates `d` and all its missing ancestors; existing ones are kept. */
    method MakeDirectory(d: string)
      modifies this
      ensures dirs == old(dirs) + DirChain(d)
      ensures files == old(files)
    {
      dirs := dirs + DirChain(d);
    }

    /**
     * Creates or overwrites the file `p`; its parent directory must exist,
     * as `writeFileSync` fails otherwise.
     */
    method WriteFile(p: string, content: string)
      requires Dirname(p) in dirs
      modifies this
      ensures files == old(files)[p := content]
      ensures dirs == old(dirs)
    {
      files := files[p := content];
    }
  }
}
