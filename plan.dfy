/**
 * The file plan of the scaffolder: the fixed list `filesToGenerate`
 * (index.js:62-83) of template names and output paths.
 */
module FilePlan {
  import opened Text
  import opened Names
  import opened Paths

  datatype FileTask = FileTask(template: string, output: string)

  /** One row per entry of the list: template, layer directory, class kind. */
  datatype Entry = Entry(template: string, layer: string, kind: string)

  const Layout: seq<Entry> := [
    Entry("controller.java", "controller", "Controller"),
    Entry("dto.java", "dto", "DTO"),
    Entry("repository.java", "repository", "Repository"),
    Entry("service.java", "service", "Service"),
    Entry("serviceImpl.java", "service/impl", "ServiceImpl")
  ]

  /** `path.join(baseDir, <layer>, `${name}<Kind>.java`)` for entry `i`. */
  function OutputPath(baseDir: string, name: string, i: nat): string
    requires i < |Layout|
  {
    Join(Join(baseDir, Layout[i].layer), name + Layout[i].kind + ".java")
  }

  /**
   * Five tasks in the fixed order controller, dto, repository, service,
   * serviceImpl, all under `baseDir`, with pairwise distinct outputs, so
   * that no write of the plan overwrites another. The file names use `name`
   * as given, not capitalised.
   */
  function FilesToGenerate(baseDir: string, name: string): (plan: seq<FileTask>)
    ensures |plan| == 5
    ensures forall i :: 0 <= i < 5 ==> plan[i] == FileTask(Layout[i].template, OutputPath(baseDir, name, i))
    ensures forall i :: 0 <= i < 5 ==> baseDir + "/" <= plan[i].output
    ensures forall i, j :: 0 <= i < j < 5 ==> plan[i].output != plan[j].output
  {
    OutputsDistinct(baseDir, name);
    seq(5, i requires 0 <= i < 5 => FileTask(Layout[i].template, OutputPath(baseDir, name, i)))
  }

  /** Output `i` is `baseDir/` followed by the layer directory. */
  lemma OutputShape(baseDir: string, name: string, i: nat)
    requires i < 5
    ensures baseDir + "/" <= OutputPath(baseDir, name, i)
    ensures OutputPath(baseDir, name, i)[|baseDir| + 1] == Layout[i].layer[0]
  {
    assert OutputPath(baseDir, name, i) == baseDir + "/" + (Layout[i].layer + "/" + name + Layout[i].kind + ".java");
  }

  /** The layer directories start with c, d, r, s, s; the last is the longest. */
  lemma LayoutInitials()
    ensures Layout[0].layer[0] == 'c' && Layout[1].layer[0] == 'd' && Layout[2].layer[0] == 'r'
    ensures Layout[3].layer[0] == 's' && Layout[4].layer[0] == 's'
    ensures |Layout[3].layer| + |Layout[3].kind| < |Layout[4].layer| + |Layout[4].kind|
  {
  }

  lemma OutputLength(baseDir: string, name: string, i: nat)
    requires i < 5
    ensures |OutputPath(baseDir, name, i)| == |baseDir| + |Layout[i].layer| + |name| + |Layout[i].kind| + 7
  {
  }

  /** The outputs differ in the letter after `baseDir/`, or else in length. */
  lemma OutputsDistinct(baseDir: string, name: string)
    ensures forall i :: 0 <= i < 5 ==> baseDir + "/" <= OutputPath(baseDir, name, i)
    ensures forall i, j :: 0 <= i < j < 5 ==> OutputPath(baseDir, name, i) != OutputPath(baseDir, name, j)
  {
    LayoutInitials();
    forall i | 0 <= i < 5
      ensures baseDir + "/" <= OutputPath(baseDir, name, i)
    {
      OutputShape(baseDir, name, i);
    }
    forall i, j | 0 <= i < j < 5
      ensures OutputPath(baseDir, name, i) != OutputPath(baseDir, name, j)
    {
      OutputShape(baseDir, name, i);
      OutputShape(baseDir, name, j);
      if i == 3 && j == 4 {
        OutputLength(baseDir, name, 3);
        OutputLength(baseDir, name, 4);
      }
    }
  }

  lemma KindHasNoSeparator(i: nat)
    requires i < 5
    ensures '/' !in Layout[i].kind && |Layout[i].layer| > 0
  {
  }

  /** Output `i` is `baseDir/<layer>/<raw name><kind>.java`. */
  lemma PlanOutputSpelled(baseDir: string, name: string, i: nat)
    requires i < 5
    ensures FilesToGenerate(baseDir, name)[i].template == Layout[i].template
    ensures FilesToGenerate(baseDir, name)[i].output
         == baseDir + "/" + Layout[i].layer + "/" + name + Layout[i].kind + ".java"
  {
    var dir := Join(baseDir, Layout[i].layer);
    ConcatAssoc(dir + "/", name + Layout[i].kind, ".java");
    ConcatAssoc(dir + "/", name, Layout[i].kind);
  }

  /** When `name` has no separator, the parent of output `i` is `baseDir/<layer>`. */
  lemma PlanParent(baseDir: string, name: string, i: nat)
    requires i < 5 && '/' !in name
    ensures Dirname(FilesToGenerate(baseDir, name)[i].output) == Join(baseDir, Layout[i].layer)
  {
    var dir, kind := Join(baseDir, Layout[i].layer), Layout[i].kind;
    KindHasNoSeparator(i);
    assert '/' !in ".java";
    var leaf := name + kind + ".java";
    assert '/' !in leaf;
    DirnameOfJoin(dir, leaf);
    assert FilesToGenerate(baseDir, name)[i].output == Join(dir, leaf);
  }

  /**
   * The file of the service implementation is named after the raw name,
   * whereas the class the template declares in it is named after the
   * capitalised one: for a name starting with a lower-case letter they differ.
   */
  lemma ServiceImplFileNameIsRaw(baseDir: string, name: string)
    requires name != [] && IsLower(name[0])
    ensures var out := FilesToGenerate(baseDir, name)[4].output;
      && out == baseDir + "/service/impl/" + name + "ServiceImpl.java"
      && out != baseDir + "/service/impl/" + CapitalizeFirstLetter(name) + "ServiceImpl.java"
  {
    var out := OutputPath(baseDir, name, 4);
    assert out == baseDir + "/service/impl/" + name + "ServiceImpl.java";
    var k := |baseDir + "/service/impl/"|;
    assert out[k] == name[0];
    assert (baseDir + "/service/impl/" + CapitalizeFirstLetter(name) + "ServiceImpl.java")[k]
        == CapitalizeFirstLetter(name)[0];
  }
}
