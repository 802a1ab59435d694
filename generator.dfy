/**
 * `generateFiles` (index.js:56-126): plan the five files, show them, and on
 * confirmation create each one's directory and write its rendered template.
 */
module Generator {
  import opened Text
  import opened Names
  import opened Render
  import opened Paths
  import opened FilePlan
  import opened Files

  datatype Outcome =
    | Cancelled                        // the user declined the preview
    | Completed                        // all five files were written
    | TemplateNotFound(template: string) // `readFileSync` threw for this template

  const PreviewHeader: string := "Files to be created:"
  const CanceledLine: string := "File creation canceled."

  /** What the renderer needs of the two arguments. */
  predicate ValidInputs(name: string, appName: string)
  {
    CaseMappable(name) && NoDollar(name) && NoDollar(appName)
  }

  /** The plan for the given working directory and arguments (index.js:57-83). */
  function PlanFor(cwd: string, name: string, appName: string): (plan: seq<FileTask>)
    ensures |plan| == 5
    ensures forall i :: 0 <= i < 5 ==> cwd + "/" <= plan[i].output
  {
    var baseDir := GetBaseDir(cwd, NormalizeAppName(appName));
    var plan := FilesToGenerate(baseDir, name);
    assert forall i :: 0 <= i < 5 ==> cwd + "/" <= baseDir <= plan[i].output;
    plan
  }

  /**
   * The text written for a template (index.js:117-121): the capitalised name
   * and the dotted module path are substituted; a template without `{{` is
   * copied as it is.
   */
  function Rendered(text: string, name: string, appName: string): (r: string)
    requires ValidInputs(name, appName)
    ensures !Contains(text, "{{") ==> r == text
  {
    NoNewCharacters(name, appName, '$');
    ReplacePlaceholders(text, CapitalizeFirstLetter(name), DottedAppName(NormalizeAppName(appName)))
  }

  /** How many tasks at the front of `plan` have their template available. */
  function TemplatesFound(plan: seq<FileTask>, available: set<string>): (k: nat)
    ensures k <= |plan|
    ensures forall j :: 0 <= j < k ==> plan[j].template in available
    ensures k < |plan| ==> plan[k].template !in available
  {
    FoundFrom(plan, available, 0)
  }

  /** The first task from `i` on whose template is missing, or `|plan|`. */
  function FoundFrom(plan: seq<FileTask>, available: set<string>, i: nat): (k: nat)
    requires i <= |plan|
    ensures i <= k <= |plan|
    ensures forall j :: i <= j < k ==> plan[j].template in available
    ensures k < |plan| ==> plan[k].template !in available
    decreases |plan| - i
  {
    if i == |plan| || plan[i].template !in available then i
    else FoundFrom(plan, available, i + 1)
  }

  /** One more task found, or the count ends here. */
  lemma TemplatesFoundStep(plan: seq<FileTask>, available: set<string>, i: nat)
    requires i < |plan| && i <= TemplatesFound(plan, available)
    ensures plan[i].template in available ==> i + 1 <= TemplatesFound(plan, available)
    ensures plan[i].template !in available ==> i == TemplatesFound(plan, available)
  {
  }

  /** The text each available template renders to. */
  function RenderedTemplates(templates: map<string, string>, name: string, appName: string): (contents: map<string, string>)
    requires ValidInputs(name, appName)
    ensures contents.Keys == templates.Keys
  {
    map t | t in templates :: Rendered(templates[t], name, appName)
  }

  /** The output paths of the first `k` tasks. */
  function Outputs(plan: seq<FileTask>, k: nat): (outs: set<string>)
    requires k <= |plan|
    ensures forall j :: 0 <= j < k ==> plan[j].output in outs
  {
    if k == 0 then {} else Outputs(plan, k - 1) + {plan[k - 1].output}
  }

  /** The files after the first `k` tasks have written their `contents`, in order. */
  function FilesAfter(files0: map<string, string>, plan: seq<FileTask>, k: nat,
                      contents: map<string, string>): (files: map<string, string>)
    requires k <= TemplatesFound(plan, contents.Keys)
    ensures forall p :: p in files0 ==> p in files
    ensures forall j :: 0 <= j < k ==> plan[j].output in files
  {
    if k == 0 then files0
    else FilesAfter(files0, plan, k - 1, contents)[plan[k - 1].output := contents[plan[k - 1].template]]
  }

  /** The directories after the parents of the first `k` tasks have been made. */
  function DirsAfter(dirs0: set<string>, plan: seq<FileTask>, k: nat): set<string>
    requires k <= |plan|
  {
    if k == 0 then dirs0
    else DirsAfter(dirs0, plan, k - 1) + DirChain(Dirname(plan[k - 1].output))
  }

  /** The header and the output of each of the first `k` tasks. */
  function PreviewLines(plan: seq<FileTask>, k: nat): seq<string>
    requires k <= |plan|
  {
    if k == 0 then [PreviewHeader] else PreviewLines(plan, k - 1) + [plan[k - 1].output]
  }

  /** A `Created <output>` line for each of the first `k` tasks. */
  function CreatedLines(plan: seq<FileTask>, k: nat): seq<string>
    requires k <= |plan|
  {
    if k == 0 then [] else CreatedLines(plan, k - 1) + ["Created " + plan[k - 1].output]
  }

  /** The preview loop (index.js:86-89): the header, then every output. */
  method ShowPreview(plan: seq<FileTask>) returns (log: seq<string>)
    ensures log == PreviewLines(plan, |plan|)
  {
    log := [PreviewHeader];
    var i := 0;
    while i < |plan|
      invariant 0 <= i <= |plan|
      invariant log == PreviewLines(plan, i)
    {
      log := log + [plan[i].output];
      i := i + 1;
    }
  }

  /**
   * The body of the creation loop (index.js:108-124) for one task: make the
   * parent directory, then, if the template can be read, write it rendered.
   */
  method CreateFile(fs: FileSystem, templates: map<string, string>, task: FileTask,
                    name: string, appName: string)
      returns (found: bool)
    requires ValidInputs(name, appName)
    modifies fs
    ensures found == (task.template in templates)
    ensures fs.dirs == old(fs.dirs) + DirChain(Dirname(task.output))
    ensures found ==> fs.files == old(fs.files)[task.output := RenderedTemplates(templates, name, appName)[task.template]]
    ensures !found ==> fs.files == old(fs.files)
  {
    fs.MakeDirectory(Dirname(task.output));
    if task.template !in templates {
      return false;
    }
    var content := Rendered(templates[task.template], name, appName);
    fs.WriteFile(task.output, content);
    return true;
  }

  /**
   * The creation loop (index.js:108-125): the tasks in order, each logging
   * `Created <output>`. A missing template stops the loop at the task after
   * its directory was made; the files written so far stay.
   */
  method CreateFiles(fs: FileSystem, templates: map<string, string>, plan: seq<FileTask>,
                     name: string, appName: string)
      returns (outcome: Outcome, created: seq<string>)
    requires ValidInputs(name, appName)
    modifies fs
    ensures var k := TemplatesFound(plan, templates.Keys);
      && created == CreatedLines(plan, k)
      && fs.files == FilesAfter(old(fs.files), plan, k, RenderedTemplates(templates, name, appName))
      && (k == |plan| ==> outcome == Completed && fs.dirs == DirsAfter(old(fs.dirs), plan, k))
      && (k < |plan| ==> outcome == TemplateNotFound(plan[k].template) && fs.dirs == DirsAfter(old(fs.dirs), plan, k + 1))
  {
    ghost var contents := RenderedTemplates(templates, name, appName);
    ghost var found := TemplatesFound(plan, templates.Keys);
    created := [];
    var i := 0;
    while i < |plan|
      invariant 0 <= i <= found
      invariant fs.files == FilesAfter(old(fs.files), plan, i, contents)
      invariant fs.dirs == DirsAfter(old(fs.dirs), plan, i)
      invariant created == CreatedLines(plan, i)
    {
      TemplatesFoundStep(plan, templates.Keys, i);
      var ok := CreateFile(fs, templates, plan[i], name, appName);
      if !ok {
        assert i == found;
        return TemplateNotFound(plan[i].template), created;
      }
      created := created + ["Created " + plan[i].output];
      i := i + 1;
    }
    return Completed, created;
  }

  /**
   * `generateFiles(name, appName)` run in `cwd`, with `confirmed` the answer
   * to the prompt and `templates` the contents of the templates directory.
   * Declined: only the preview and the cancel line, nothing on disk changes.
   * Otherwise the tasks run in order until one's template is missing; that
   * task has had its directory made but nothing written.
   */
  method GenerateFiles(fs: FileSystem, templates: map<string, string>, cwd: string,
                       name: string, appName: string, confirmed: bool)
      returns (outcome: Outcome, log: seq<string>)
    requires ValidInputs(name, appName)
    modifies fs
    ensures var plan := PlanFor(cwd, name, appName);
      var k := TemplatesFound(plan, templates.Keys);
      && (!confirmed ==>
            && outcome == Cancelled
            && log == PreviewLines(plan, |plan|) + [CanceledLine]
            && fs.files == old(fs.files) && fs.dirs == old(fs.dirs))
      && (confirmed ==>
            && log == PreviewLines(plan, |plan|) + CreatedLines(plan, k)
            && fs.files == FilesAfter(old(fs.files), plan, k, RenderedTemplates(templates, name, appName)))
      && (confirmed && k == |plan| ==> outcome == Completed && fs.dirs == DirsAfter(old(fs.dirs), plan, k))
      && (confirmed && k < |plan| ==>
            outcome == TemplateNotFound(plan[k].template) && fs.dirs == DirsAfter(old(fs.dirs), plan, k + 1))
  {
    var normalizedAppName := NormalizeAppName(appName);
    var baseDir := GetBaseDir(cwd, normalizedAppName);
    var plan := FilesToGenerate(baseDir, name);
    log := ShowPreview(plan);
    if !confirmed {
      log := log + [CanceledLine];
      return Cancelled, log;
    }
    var created;
    outcome, created := CreateFiles(fs, templates, plan, name, appName);
    log := log + created;
  }

  /** Output `j` holds its template's contents unless a later task overwrote it. */
  lemma {:induction false} FileAfterWrite(files0: map<string, string>, plan: seq<FileTask>, k: nat,
                                          contents: map<string, string>, j: nat)
    requires j < k <= TemplatesFound(plan, contents.Keys)
    requires forall i :: j < i < k ==> plan[i].output != plan[j].output
    ensures FilesAfter(files0, plan, k, contents)[plan[j].output] == contents[plan[j].template]
  {
    if j < k - 1 {
      FileAfterWrite(files0, plan, k - 1, contents, j);
    }
  }

  /** A path none of the first `k` tasks writes keeps its old content. */
  lemma {:induction false} FileAfterUntouched(files0: map<string, string>, plan: seq<FileTask>, k: nat,
                                              contents: map<string, string>, p: string)
    requires k <= TemplatesFound(plan, contents.Keys)
    requires p in files0 && p !in Outputs(plan, k)
    ensures FilesAfter(files0, plan, k, contents)[p] == files0[p]
  {
    if k > 0 {
      FileAfterUntouched(files0, plan, k - 1, contents, p);
    }
  }

  /** After `k` writes the paths are the old ones plus the `k` outputs, and no others. */
  lemma {:induction false} FilesAfterKeys(files0: map<string, string>, plan: seq<FileTask>, k: nat,
                                          contents: map<string, string>)
    requires k <= TemplatesFound(plan, contents.Keys)
    ensures FilesAfter(files0, plan, k, contents).Keys == files0.Keys + Outputs(plan, k)
  {
    if k > 0 {
      FilesAfterKeys(files0, plan, k - 1, contents);
    }
  }

  /**
   * With distinct outputs, after `k` writes the files are the old ones plus
   * the `k` outputs; each output holds its template's contents and every
   * other file is untouched.
   */
  lemma FilesAfterEffect(files0: map<string, string>, plan: seq<FileTask>, k: nat, contents: map<string, string>)
    requires k <= TemplatesFound(plan, contents.Keys)
    requires forall i, j :: 0 <= i < j < k ==> plan[i].output != plan[j].output
    ensures var f := FilesAfter(files0, plan, k, contents);
      && f.Keys == files0.Keys + Outputs(plan, k)
      && (forall j :: 0 <= j < k ==> f[plan[j].output] == contents[plan[j].template])
      && (forall p :: p in files0 && p !in Outputs(plan, k) ==> f[p] == files0[p])
  {
    forall j | 0 <= j < k
      ensures FilesAfter(files0, plan, k, contents)[plan[j].output] == contents[plan[j].template]
    {
      FileAfterWrite(files0, plan, k, contents, j);
    }
    forall p | p in files0 && p !in Outputs(plan, k)
      ensures FilesAfter(files0, plan, k, contents)[p] == files0[p]
    {
      FileAfterUntouched(files0, plan, k, contents, p);
    }
    FilesAfterKeys(files0, plan, k, contents);
  }

  /**
   * A confirmed run with all five templates present: exactly the five
   * outputs are added or replaced, each holding its rendered template, and
   * every other file keeps its contents.
   */
  lemma ConfirmedRunEffect(files0: map<string, string>, templates: map<string, string>, cwd: string,
                           name: string, appName: string)
    requires ValidInputs(name, appName)
    requires TemplatesFound(PlanFor(cwd, name, appName), templates.Keys) == 5
    ensures var plan := PlanFor(cwd, name, appName);
      var f := FilesAfter(files0, plan, 5, RenderedTemplates(templates, name, appName));
      && f.Keys == files0.Keys + Outputs(plan, 5)
      && (forall j :: 0 <= j < 5 ==> f[plan[j].output] == Rendered(templates[plan[j].template], name, appName))
      && (forall p :: p in files0 && p !in Outputs(plan, 5) ==> f[p] == files0[p])
  {
    var plan := PlanFor(cwd, name, appName);
    var contents := RenderedTemplates(templates, name, appName);
    FilesAfterEffect(files0, plan, 5, contents);
  }

  /** `x` is the parent directory of one of the first `k` outputs, or an ancestor of it. */
  predicate OnParentChain(x: string, plan: seq<FileTask>, k: nat)
    requires k <= |plan|
  {
    k > 0 && (AncestorOrSelf(x, Dirname(plan[k - 1].output)) || OnParentChain(x, plan, k - 1))
  }

  /**
   * After `k` directory creations the old directories remain, the parent of
   * each of the `k` outputs exists, and every new directory is one of those
   * parents or an ancestor of one.
   */
  lemma {:induction false} DirsAfterEffect(dirs0: set<string>, plan: seq<FileTask>, k: nat)
    requires k <= |plan|
    ensures var d := DirsAfter(dirs0, plan, k);
      && dirs0 <= d
      && (forall j :: 0 <= j < k ==> Dirname(plan[j].output) in d)
      && (forall x :: x in d && x !in dirs0 ==> OnParentChain(x, plan, k))
  {
    if k > 0 {
      DirsAfterEffect(dirs0, plan, k - 1);
    }
  }

  /** The log lists the header and then the `k` outputs. */
  lemma {:induction false} PreviewLinesEffect(plan: seq<FileTask>, k: nat)
    requires k <= |plan|
    ensures var l := PreviewLines(plan, k);
      |l| == k + 1 && l[0] == PreviewHeader && forall j :: 0 <= j < k ==> l[j + 1] == plan[j].output
  {
    if k > 0 {
      PreviewLinesEffect(plan, k - 1);
    }
  }

  /** The `Created` lines name the `k` outputs in order. */
  lemma {:induction false} CreatedLinesEffect(plan: seq<FileTask>, k: nat)
    requires k <= |plan|
    ensures var l := CreatedLines(plan, k);
      |l| == k && forall j :: 0 <= j < k ==> l[j] == "Created " + plan[j].output
  {
    if k > 0 {
      CreatedLinesEffect(plan, k - 1);
    }
  }

  /** Rendering never brings `{{` into a module path that had none. */
  lemma PlainDotted(appName: string)
    requires Plain(appName)
    ensures Plain(DottedAppName(NormalizeAppName(appName)))
  {
    var d := DottedAppName(NormalizeAppName(appName));
    assert forall i :: 0 <= i < |d| ==> (d[i] == '{' <==> appName[i] == '{');
  }

  /**
   * On a template whose literal text is plain, with plain arguments, the
   * rendering puts the capitalised name for `{{name}}`, the camel-cased name
   * for `{{nameCamelCase}}` and the dotted module path for `{{appName}}`.
   */
  lemma RenderedFillsTemplate(pieces: seq<Piece>, name: string, appName: string)
    requires ValidInputs(name, appName) && Plain(name) && Plain(appName)
    requires PlainLiterals(pieces)
    ensures Rendered(Source(pieces), name, appName)
         == Fill(pieces, CapitalizeFirstLetter(name), ToCamelCase(name), DottedAppName(NormalizeAppName(appName)))
  {
    var cap, app := CapitalizeFirstLetter(name), DottedAppName(NormalizeAppName(appName));
    PlainCapitalized(name);
    PlainDotted(appName);
    NoNewCharacters(name, appName, '$');
    RenderFillsTemplate(pieces, cap, app);
    CaseHelpersAbsorb(name);
  }

  /**
   * End to end: when every template of a plan with distinct outputs is
   * available, a confirmed run leaves in each output its template filled in
   * as above. `FilesToGenerate` guarantees the distinct outputs.
   */
  lemma GeneratedFileFillsTemplate(files0: map<string, string>, plan: seq<FileTask>,
                                   templates: map<string, string>, name: string, appName: string,
                                   j: nat, pieces: seq<Piece>)
    requires ValidInputs(name, appName) && Plain(name) && Plain(appName)
    requires forall i, j :: 0 <= i < j < |plan| ==> plan[i].output != plan[j].output
    requires TemplatesFound(plan, templates.Keys) == |plan|
    requires j < |plan|
    requires templates[plan[j].template] == Source(pieces)
    requires PlainLiterals(pieces)
    ensures FilesAfter(files0, plan, |plan|, RenderedTemplates(templates, name, appName))[plan[j].output]
        == Fill(pieces, CapitalizeFirstLetter(name), ToCamelCase(name), DottedAppName(NormalizeAppName(appName)))
  {
    var contents := RenderedTemplates(templates, name, appName);
    FilesAfterEffect(files0, plan, |plan|, contents);
    assert contents[plan[j].template] == Rendered(Source(pieces), name, appName);
    RenderedFillsTemplate(pieces, name, appName);
  }

  // ---------------------------------------------------------------------
  // templates/serviceImpl.java, lines 1 and 12 (with its line break).
  // ---------------------------------------------------------------------

  /** Line 1 becomes the package clause of the dotted module path. */
  lemma ServiceImplPackageLine(name: string, appName: string)
    requires ValidInputs(name, appName) && Plain(name) && Plain(appName)
    ensures Rendered("package " + AppNameToken + ".service.impl;", name, appName)
         == "package " + DottedAppName(NormalizeAppName(appName)) + ".service.impl;"
  {
    var cap, app := CapitalizeFirstLetter(name), DottedAppName(NormalizeAppName(appName));
    PackageLineTextPlain();
    PlainCapitalized(name);
    PlainDotted(appName);
    NoNewCharacters(name, appName, '$');
    RenderOneToken("package ", AppName, ".service.impl;", cap, app);
  }

  /** Line 12 declares `<Name>ServiceImpl` implementing `<Name>Service`, capitalised. */
  lemma ServiceImplClassLine(name: string, appName: string)
    requires ValidInputs(name, appName) && Plain(name) && Plain(appName)
    ensures Rendered("public class " + NameToken + "ServiceImpl implements " + NameToken + "Service {\n", name, appName)
         == "public class " + CapitalizeFirstLetter(name) + "ServiceImpl implements "
              + CapitalizeFirstLetter(name) + "Service {\n"
  {
    var cap, app := CapitalizeFirstLetter(name), DottedAppName(NormalizeAppName(appName));
    ClassLineTextPlain();
    PlainCapitalized(name);
    PlainDotted(appName);
    NoNewCharacters(name, appName, '$');
    RenderTwoTokens("public class ", Name, "ServiceImpl implements ", Name, "Service {\n", cap, app);
  }

  /** Lower-case letters and dots: the shape of `order` and `com.example.shop`. */
  predicate LowerDotted(s: string)
  {
    forall i :: 0 <= i < |s| ==> 'a' <= s[i] <= 'z' || s[i] == '.'
  }

  lemma LowerDottedInputs(name: string, appName: string)
    requires name != [] && LowerDotted(name) && LowerDotted(appName)
    ensures ValidInputs(name, appName) && Plain(name) && Plain(appName)
    ensures DottedAppName(NormalizeAppName(appName)) == appName
  {
    NoBracePlain(name);
    NoBracePlain(appName);
    DottedRoundTrip(appName);
  }

  /** The entity `order` in the module `com.example.shop`. */
  lemma OrderInShop(name: string, appName: string)
    requires name == "order" && appName == "com.example.shop"
    ensures ValidInputs(name, appName) && Plain(name) && Plain(appName)
    ensures CapitalizeFirstLetter(name) == "Order"
    ensures DottedAppName(NormalizeAppName(appName)) == appName
  {
    assert LowerDotted(name) && LowerDotted(appName);
    LowerDottedInputs(name, appName);
    assert name == [name[0]] + name[1..];
  }

  /** `order` in `com.example.shop`: `package com.example.shop.service.impl;`. */
  lemma OrderServiceImplPackageLine(name: string, appName: string)
    requires name == "order" && appName == "com.example.shop"
    ensures Rendered("package " + AppNameToken + ".service.impl;", name, appName)
         == "package " + "com.example.shop" + ".service.impl;"
  {
    OrderInShop(name, appName);
    ServiceImplPackageLine(name, appName);
  }

  /** `order` in `com.example.shop`: `public class OrderServiceImpl implements OrderService {`. */
  lemma OrderServiceImplClassLine(name: string, appName: string)
    requires name == "order" && appName == "com.example.shop"
    ensures Rendered("public class " + NameToken + "ServiceImpl implements " + NameToken + "Service {\n", name, appName)
         == "public class " + "Order" + "ServiceImpl implements " + "Order" + "Service {\n"
  {
    OrderInShop(name, appName);
    ServiceImplClassLine(name, appName);
  }
}
