/**
 * The decisions the import dialog takes, apart from its layout: which tags
 * are shown after a selection, how offered tags split into selected and
 * available, the values handed to the import (pixel sizes, naming depth,
 * default dataset name), which chosen files are admitted, whether a folder
 * becomes a container, the header text, and the list of datasets.
 *
 * Files, tags and containers are plain values; the dialog's widgets are
 * replaced by the values they hold.
 */
module ImportChooser {
  import opened Optional

  // ---------------------------------------------------------------------
  // Tags
  // ---------------------------------------------------------------------

  /** A tag annotation; an id below zero marks a tag not saved yet. */
  datatype Tag = Tag(id: int, value: string)

  predicate UnsavedWith(t: Tag, v: string)
  {
    t.id < 0 && t.value == v
  }

  /**
   * The unsaved tags on display, by value; a later tag with the same value
   * replaces an earlier one, as `put` on the value-keyed map does.
   */
  function UnsavedByValue(shown: seq<Tag>): map<string, Tag>
    decreases |shown|
  {
    if shown == [] then map[]
    else
      var m := UnsavedByValue(shown[..|shown| - 1]);
      var t := shown[|shown| - 1];
      if t.id < 0 then m[t.value := t] else m
  }

  /** The incoming tags kept: the saved ones, and the unsaved ones whose value is not among `unsavedValues`. */
  function KeptIncoming(incoming: seq<Tag>, unsavedValues: set<string>): seq<Tag>
    decreases |incoming|
  {
    if incoming == [] then []
    else
      var t := incoming[|incoming| - 1];
      var kept := KeptIncoming(incoming[..|incoming| - 1], unsavedValues);
      if t.id < 0 && t.value in unsavedValues then kept else kept + [t]
  }

  /**
   * `result` is the merge of the tags on display with an incoming selection:
   * the kept incoming tags in their order, followed by the shown unsaved
   * tags, one per value, in an unspecified order.
   */
  ghost predicate IsMerge(shown: seq<Tag>, incoming: seq<Tag>, result: seq<Tag>)
  {
    var newTags := UnsavedByValue(shown);
    var kept := KeptIncoming(incoming, newTags.Keys);
    |kept| <= |result| && result[..|kept|] == kept
    && multiset(result[|kept|..]) == multiset(newTags.Values)
  }

  /** Position `i` holds the last unsaved tag with value `v`. */
  predicate LastUnsavedAt(shown: seq<Tag>, i: int, v: string)
  {
    0 <= i < |shown| && UnsavedWith(shown[i], v)
    && forall j :: i < j < |shown| ==> !UnsavedWith(shown[j], v)
  }

  /** The map has an entry for `v` exactly when some shown unsaved tag carries `v`. */
  lemma {:induction false} UnsavedKey(shown: seq<Tag>, v: string)
    ensures v in UnsavedByValue(shown) <==> exists i :: 0 <= i < |shown| && UnsavedWith(shown[i], v)
    decreases |shown|
  {
    if shown != [] {
      var init := shown[..|shown| - 1];
      UnsavedKey(init, v);
      if exists i :: 0 <= i < |shown| && UnsavedWith(shown[i], v) {
        var i :| 0 <= i < |shown| && UnsavedWith(shown[i], v);
        if i < |init| { assert UnsavedWith(init[i], v); }
      }
      if v in UnsavedByValue(init) {
        var i :| 0 <= i < |init| && UnsavedWith(init[i], v);
        assert shown[i] == init[i];
      }
    }
  }

  /** The entry for `v` is the last shown unsaved tag carrying `v`. */
  lemma {:induction false} UnsavedEntryIsLast(shown: seq<Tag>, v: string)
    requires v in UnsavedByValue(shown)
    ensures exists i :: LastUnsavedAt(shown, i, v) && shown[i] == UnsavedByValue(shown)[v]
    ensures UnsavedWith(UnsavedByValue(shown)[v], v)
    decreases |shown|
  {
    var init := shown[..|shown| - 1];
    var t := shown[|shown| - 1];
    if t.id < 0 && t.value == v {
      assert LastUnsavedAt(shown, |shown| - 1, v);
    } else {
      UnsavedEntryIsLast(init, v);
      var i :| LastUnsavedAt(init, i, v) && init[i] == UnsavedByValue(init)[v];
      assert shown[i] == init[i];
      assert LastUnsavedAt(shown, i, v);
    }
  }

  /** An incoming tag is kept exactly when it is saved or its value is not among `unsavedValues`. */
  lemma {:induction false} KeptIncomingMembers(incoming: seq<Tag>, unsavedValues: set<string>)
    ensures forall t :: t in KeptIncoming(incoming, unsavedValues) <==>
      t in incoming && (t.id >= 0 || t.value !in unsavedValues)
    decreases |incoming|
  {
    if incoming != [] {
      var init := incoming[..|incoming| - 1];
      KeptIncomingMembers(init, unsavedValues);
      assert incoming == init + [incoming[|incoming| - 1]];
    }
  }

  /**
   * The merge of `handleTagsSelection`, computed as the source does: the shown
   * unsaved tags are indexed by value, the incoming tags are filtered, and the
   * indexed tags are appended in the order the index yields them.
   */
  method MergeTags(shown: seq<Tag>, incoming: seq<Tag>) returns (toKeep: seq<Tag>)
    ensures IsMerge(shown, incoming, toKeep)
  {
    var newTags: map<string, Tag> := map[];
    var i := 0;
    while i < |shown|
      invariant 0 <= i <= |shown|
      invariant newTags == UnsavedByValue(shown[..i])
    {
      var t := shown[i];
      if t.id < 0 {
        newTags := newTags[t.value := t];
      }
      i := i + 1;
      assert shown[..i][..i - 1] == shown[..i - 1];
    }
    assert shown[..|shown|] == shown;
    toKeep := [];
    i := 0;
    while i < |incoming|
      invariant 0 <= i <= |incoming|
      invariant toKeep == KeptIncoming(incoming[..i], newTags.Keys)
    {
      var t := incoming[i];
      if t.id < 0 {
        if t.value !in newTags {
          toKeep := toKeep + [t];
        }
      } else {
        toKeep := toKeep + [t];
      }
      i := i + 1;
      assert incoming[..i][..i - 1] == incoming[..i - 1];
    }
    assert incoming[..|incoming|] == incoming;
    ghost var k := |toKeep|;
    var rest := newTags.Values;
    while rest != {}
      invariant rest <= newTags.Values
      invariant k <= |toKeep| && toKeep[..k] == KeptIncoming(incoming, newTags.Keys)
      invariant multiset(toKeep[k..]) + multiset(rest) == multiset(newTags.Values)
      decreases rest
    {
      var t :| t in rest;
      assert multiset(rest) == multiset(rest - {t}) + multiset{t};
      assert toKeep[k..] + [t] == (toKeep + [t])[k..];
      toKeep := toKeep + [t];
      rest := rest - {t};
    }
  }

  /**
   * Merging the remaining tags with themselves, as the removal of a tag
   * does, keeps every saved tag and, for each unsaved value, the last
   * unsaved tag with that value; nothing else.
   */
  lemma SelfMergeContents(rest: seq<Tag>, result: seq<Tag>)
    requires IsMerge(rest, rest, result)
    ensures forall t :: t in result <==>
      t in rest && (t.id >= 0 || (t.value in UnsavedByValue(rest) && UnsavedByValue(rest)[t.value] == t))
  {
    var m := UnsavedByValue(rest);
    var kept := KeptIncoming(rest, m.Keys);
    KeptIncomingMembers(rest, m.Keys);
    assert result == kept + result[|kept|..];
    forall t
      ensures t in result <==> t in rest && (t.id >= 0 || (t.value in m && m[t.value] == t))
    {
      if t in result[|kept|..] {
        assert t in multiset(m.Values);
        var v :| v in m && m[v] == t;
        UnsavedEntryIsLast(rest, v);
        var i :| LastUnsavedAt(rest, i, v) && rest[i] == m[v];
      }
      if t in rest && t.id < 0 {
        var i :| 0 <= i < |rest| && rest[i] == t;
        UnsavedKey(rest, t.value);
        if m[t.value] == t {
          assert t in m.Values;
          assert t in multiset(result[|kept|..]);
        }
      }
    }
  }

  /** The offered tags, split by `setTags`: selected when already on display with that (positive) id. */
  datatype TagChoice = TagChoice(selected: seq<Tag>, available: seq<Tag>)

  /** `id` is the id of a saved tag on display. */
  predicate ShownSavedId(shown: seq<Tag>, id: int)
  {
    exists t :: t in shown && t.id > 0 && t.id == id
  }

  // ---------------------------------------------------------------------
  // Values passed on to the import
  // ---------------------------------------------------------------------

  /**
   * The default pixel size along X, Y and Z: each axis takes the value
   * entered, or 1 when its field is empty; the sizes are passed on only when
   * some field holds a value.  Sizes are only copied, so reals stand for the
   * source's doubles.
   */
  method PixelsSize(entered: seq<Option<real>>) returns (sizes: Option<seq<real>>)
    requires |entered| == 3
    ensures sizes.Some? <==> exists k :: 0 <= k < 3 && entered[k].Some?
    ensures sizes.Some? ==>
      (|sizes.value| == 3
       && forall k :: 0 <= k < 3 ==>
            sizes.value[k] == (if entered[k].Some? then entered[k].value else 1.0))
  {
    var size := new real[3];
    var index := 0;
    var count := 0;
    while index < |entered|
      invariant 0 <= index <= 3
      invariant count == 0 <==> forall k :: 0 <= k < index ==> entered[k].None?
      invariant forall k :: 0 <= k < index ==>
        size[k] == (if entered[k].Some? then entered[k].value else 1.0)
    {
      var n := entered[index];
      if n.Some? {
        count := count + 1;
        size[index] := n.value;
      } else {
        size[index] := 1.0;
      }
      index := index + 1;
    }
    if count > 0 {
      sizes := Some(size[..]);
    } else {
      sizes := None;
    }
  }

  /**
   * The naming depth handed to the import: the number of folders, when
   * partial naming is selected and the field holds a number that is not
   * negative; otherwise none.
   */
  function Depth(partialName: bool, folders: Option<int>): (depth: Option<int>)
    ensures depth.Some? ==> depth.value >= 0 && folders == Some(depth.value)
    ensures depth.None? <==> !partialName || folders.None? || folders.value < 0
  {
    if partialName && folders.Some? && folders.value >= 0 then folders else None
  }

  /** Java's `String.trim`: drops every character up to U+0020 at both ends. */
  function TrimStart(s: string): string
    decreases |s|
  {
    if s != [] && s[0] <= ' ' then TrimStart(s[1..]) else s
  }

  function TrimEnd(s: string): string
    decreases |s|
  {
    if s != [] && s[|s| - 1] <= ' ' then TrimEnd(s[..|s| - 1]) else s
  }

  function Trim(s: string): string
  {
    TrimEnd(TrimStart(s))
  }

  /** A text is blank when it holds no character above U+0020. */
  predicate Blank(s: string)
  {
    forall i :: 0 <= i < |s| ==> s[i] <= ' '
  }

  lemma {:induction false} TrimStartEmpty(s: string)
    ensures TrimStart(s) == [] <==> Blank(s)
    ensures TrimStart(s) != [] ==> TrimStart(s)[0] > ' '
    decreases |s|
  {
    if s != [] && s[0] <= ' ' {
      TrimStartEmpty(s[1..]);
      if !Blank(s) {
        var i :| 0 <= i < |s| && s[i] > ' ';
        assert s[1..][i - 1] == s[i];
      }
    }
  }

  lemma {:induction false} TrimEndKeepsNonEmpty(s: string)
    requires s != [] && s[0] > ' '
    ensures TrimEnd(s) != []
    decreases |s|
  {
    if s[|s| - 1] <= ' ' {
      TrimEndKeepsNonEmpty(s[..|s| - 1]);
    }
  }

  /** The trimmed text is empty exactly when the text is blank. */
  lemma TrimEmptyIffBlank(s: string)
    ensures Trim(s) == [] <==> Blank(s)
  {
    TrimStartEmpty(s);
    if TrimStart(s) != [] {
      TrimEndKeepsNonEmpty(TrimStart(s));
    }
  }

  /**
   * The name of the default dataset created for the import: the text of the
   * default-container field, or `defaultName` when that text is null or blank.
   */
  function DefaultDatasetName(text: Option<string>, defaultName: string): (name: string)
    ensures text.None? || Blank(text.value) ==> name == defaultName
    ensures text.Some? && !Blank(text.value) ==> name == text.value
  {
    TrimEmptyIffBlank(if text.Some? then text.value else "");
    if text.None? || |Trim(text.value)| == 0 then defaultName else text.value
  }

  // ---------------------------------------------------------------------
  // Files chosen for import
  // ---------------------------------------------------------------------

  /** What the dialog asks of a chosen file; `children` is None when the listing fails. */
  datatype FileEntry = FileEntry(hidden: bool, isFile: bool, isDir: bool, children: Option<nat>)

  /** Every regular file may be imported: the format filters are not consulted. */
  function IsFileImportable(f: FileEntry): (importable: bool)
    ensures importable
  {
    true
  }

  /** The admission rule of `checkFile`. */
  predicate Admitted(f: Option<FileEntry>)
  {
    f.Some? && !f.value.hidden
    && if f.value.isFile then IsFileImportable(f.value)
       else f.value.isDir && f.value.children.Some? && f.value.children.value > 0
  }

  /** Null and hidden entries are refused, regular files admitted, directories admitted when not empty. */
  lemma AdmissionRule(f: Option<FileEntry>)
    ensures f.None? || f.value.hidden ==> !Admitted(f)
    ensures f.Some? && !f.value.hidden && f.value.isFile ==> Admitted(f)
    ensures f.Some? && !f.value.hidden && !f.value.isFile && f.value.isDir ==>
      (Admitted(f) <==> f.value.children.Some? && f.value.children.value > 0)
    ensures f.Some? && !f.value.isFile && !f.value.isDir ==> !Admitted(f)
  {
  }

  /** Appends `f` to `l` when it is admitted. */
  method CheckFile(f: Option<FileEntry>, l: seq<FileEntry>) returns (l': seq<FileEntry>)
    ensures Admitted(f) ==> l' == l + [f.value]
    ensures !Admitted(f) ==> l' == l
  {
    l' := l;
    if f.None? || f.value.hidden { return; }
    if f.value.isFile {
      if IsFileImportable(f.value) { l' := l + [f.value]; }
    } else if f.value.isDir {
      var list := f.value.children;
      if list.Some? && list.value > 0 { l' := l + [f.value]; }
    }
  }

  /** The admitted entries of `files`, in order. */
  function AdmittedOf(files: seq<Option<FileEntry>>): (r: seq<FileEntry>)
    ensures |r| <= |files|
    decreases |files|
  {
    if files == [] then []
    else
      var init := AdmittedOf(files[..|files| - 1]);
      var f := files[|files| - 1];
      if Admitted(f) then init + [f.value] else init
  }

  /**
   * The files `addFiles` hands to the table: None when nothing is selected,
   * otherwise the admitted entries of the selection in order.
   */
  method AddFiles(selected: Option<seq<Option<FileEntry>>>) returns (added: Option<seq<FileEntry>>)
    ensures selected.None? || selected.value == [] <==> added.None?
    ensures added.Some? ==> added.value == AdmittedOf(selected.value)
  {
    if selected.None? || |selected.value| == 0 { return None; }
    var files := selected.value;
    var l: seq<FileEntry> := [];
    var i := 0;
    while i < |files|
      invariant 0 <= i <= |files|
      invariant l == AdmittedOf(files[..i])
    {
      l := CheckFile(files[i], l);
      i := i + 1;
      assert files[..i][..i - 1] == files[..i - 1];
    }
    assert files[..|files|] == files;
    added := Some(l);
  }

  /** Each admitted entry comes from the selection and is not hidden. */
  lemma {:induction false} AdmittedOfMembers(files: seq<Option<FileEntry>>)
    ensures forall e :: e in AdmittedOf(files) <==> Some(e) in files && Admitted(Some(e))
    decreases |files|
  {
    if files != [] {
      var init := files[..|files| - 1];
      AdmittedOfMembers(init);
      assert files == init + [files[|files| - 1]];
    }
  }

  // ---------------------------------------------------------------------
  // Containers and header text
  // ---------------------------------------------------------------------

  /**
   * The object behind a node of the data tree; a project node carries the
   * names of the datasets among its children (none when it has no children).
   */
  datatype UserObject =
    | ProjectObj(name: string, children: seq<string>)
    | DatasetObj(name: string)
    | ScreenObj(name: string)
    | OtherObj

  /** The kind of import the dialog was opened for. */
  datatype ImportType = ScreenType | OtherType

  /** The argument of `getContainerText`: null, a list of containers, or one container. */
  datatype HeaderSubject = NullSubject | ListSubject(items: seq<UserObject>) | SingleSubject(obj: UserObject)

  const Message := "Selects the files or directories to import."
  const MessagePlate := "Selects the plates to import"
  const End := "."

  /**
   * The header text.  For a list the source walks the containers and builds
   * a text and a list of names, but then discards both: a list always yields
   * the plain message.
   */
  function ContainerText(subject: HeaderSubject): (text: string)
    ensures subject.ListSubject? || subject.NullSubject? || subject == SingleSubject(OtherObj) ==>
      text == Message + End
    ensures subject.SingleSubject? && subject.obj.DatasetObj? ==>
      text == Message + " into Dataset: " + subject.obj.name + End
    ensures subject.SingleSubject? && subject.obj.ScreenObj? ==>
      text == MessagePlate + " into Screen: " + subject.obj.name + End
    ensures subject.SingleSubject? && subject.obj.ProjectObj? ==>
      text == MessagePlate + " into Project: " + subject.obj.name + End
  {
    match subject
    case ListSubject(_) => Message + End
    case SingleSubject(DatasetObj(name)) => Message + " into Dataset: " + name + End
    case SingleSubject(ScreenObj(name)) => MessagePlate + " into Screen: " + name + End
    case SingleSubject(ProjectObj(name, _)) => MessagePlate + " into Project: " + name + End
    case _ => Message + End
  }

  /** The header of a list does not depend on what the list holds. */
  lemma ListHeaderIgnoresContents(a: seq<UserObject>, b: seq<UserObject>)
    ensures ContainerText(ListSubject(a)) == ContainerText(ListSubject(b))
  {
  }

  /** A dataset known to the dialog, wrapped as a node of the dataset box. */
  datatype DataNode = DataNode(datasetName: string)

  /** The default-container text when the first container is a project without datasets. */
  const NewText := "new dataset"

  /** The datasets under the project containers, container by container, in order. */
  function ProjectDatasets(containers: seq<UserObject>): seq<DataNode>
    decreases |containers|
  {
    if containers == [] then []
    else
      var init := ProjectDatasets(containers[..|containers| - 1]);
      var c := containers[|containers| - 1];
      if c.ProjectObj? then init + seq(|c.children|, k requires 0 <= k < |c.children| => DataNode(c.children[k]))
      else init
  }

  /** The datasets among the objects offered, in order. */
  function OfferedDatasets(objects: seq<UserObject>): seq<DataNode>
    decreases |objects|
  {
    if objects == [] then []
    else
      var init := OfferedDatasets(objects[..|objects| - 1]);
      var o := objects[|objects| - 1];
      if o.DatasetObj? then init + [DataNode(o.name)] else init
  }

  /** The datasets `buildLocationPane` offers: those of the project containers, then the offered ones. */
  function LocationDatasets(containers: Option<seq<UserObject>>, objects: Option<seq<UserObject>>): seq<DataNode>
  {
    (if containers.Some? then ProjectDatasets(containers.value) else [])
    + (if objects.Some? then OfferedDatasets(objects.value) else [])
  }

  /**
   * The default-container text `buildLocationPane` leaves: the default
   * dataset name, or `NewText` when the first container is a project and
   * no project container holds a dataset.
   */
  function LocationDefaultText(containers: Option<seq<UserObject>>, defaultName: string): string
  {
    if containers.Some? && |containers.value| > 0 && containers.value[0].ProjectObj?
       && ProjectDatasets(containers.value) == []
    then NewText
    else defaultName
  }

  /** A dataset is offered exactly when a project container holds it or it is among the objects offered. */
  lemma {:induction false} ProjectDatasetsMembers(containers: seq<UserObject>, n: string)
    ensures DataNode(n) in ProjectDatasets(containers) <==>
      exists c :: c in containers && c.ProjectObj? && n in c.children
    decreases |containers|
  {
    if containers != [] {
      var init := containers[..|containers| - 1];
      var c := containers[|containers| - 1];
      ProjectDatasetsMembers(init, n);
      assert containers == init + [c];
      if c.ProjectObj? {
        var ds := seq(|c.children|, k requires 0 <= k < |c.children| => DataNode(c.children[k]));
        if n in c.children {
          var k :| 0 <= k < |c.children| && c.children[k] == n;
          assert ds[k] == DataNode(n);
        }
        assert DataNode(n) in ds ==> n in c.children;
      }
    }
  }

  lemma {:induction false} OfferedDatasetsMembers(objects: seq<UserObject>, n: string)
    ensures DataNode(n) in OfferedDatasets(objects) <==> DatasetObj(n) in objects
    decreases |objects|
  {
    if objects != [] {
      var init := objects[..|objects| - 1];
      OfferedDatasetsMembers(init, n);
      assert objects == init + [objects[|objects| - 1]];
    }
  }

  // ---------------------------------------------------------------------
  // The dialog
  // ---------------------------------------------------------------------

  class ImportDialog {
    /** The tags on display, in display order (the values of the tag map). */
    var tags: seq<Tag>
    /** The datasets offered as default. */
    var datasets: seq<DataNode>
    /** The text of the default-container field. */
    var defaultContainerText: string
    /** The containers to import into; None when there are none (null). */
    var containers: Option<seq<UserObject>>
    /** The objects offered besides the containers; None when there are none (null). */
    var objects: Option<seq<UserObject>>
    var importType: ImportType
    /** The text of the title panel's header. */
    var headerText: string

    /**
     * A new dialog, after `initComponents` and `buildGUI`: the given
     * containers and objects, no tags, the header for the containers, and
     * the datasets and default-container text `buildLocationPane` leaves
     * (it overwrites the date `initComponents` writes in that field).  The
     * type argument is not stored, so the type keeps the field's default,
     * which is not the screen type.  `defaultName` is the import's default
     * dataset name.
     */
    constructor (containers: Option<seq<UserObject>>, objects: Option<seq<UserObject>>,
                 importType: ImportType, defaultName: string)
      ensures this.containers == containers && this.objects == objects && this.importType == OtherType
      ensures tags == []
      ensures datasets == LocationDatasets(containers, objects)
      ensures defaultContainerText == LocationDefaultText(containers, defaultName)
      ensures headerText == ContainerText(if containers.None? then NullSubject else ListSubject(containers.value))
    {
      this.containers := containers;
      this.objects := objects;
      this.importType := OtherType;
      tags := [];
      datasets := [];
      defaultContainerText := "";
      headerText := ContainerText(if containers.None? then NullSubject else ListSubject(containers.value));
      new;
      BuildLocationPane(defaultName);
    }

    /**
     * The data part of `buildLocationPane`: the default-container field is
     * reset to `defaultName`, or to `NewText` when the first container is a
     * project and no project holds a dataset; the datasets are cleared and
     * refilled with those of the project containers, then the offered ones.
     */
    method BuildLocationPane(defaultName: string)
      modifies this`datasets, this`defaultContainerText
      ensures datasets == LocationDatasets(containers, objects)
      ensures defaultContainerText == LocationDefaultText(containers, defaultName)
    {
      defaultContainerText := defaultName;
      datasets := [];
      if containers.Some? && |containers.value| > 0 {
        var cs := containers.value;
        var i := 0;
        while i < |cs|
          invariant 0 <= i <= |cs|
          invariant datasets == ProjectDatasets(cs[..i])
          invariant defaultContainerText == defaultName
        {
          var c := cs[i];
          if c.ProjectObj? {
            ghost var before := datasets;
            var j := 0;
            while j < |c.children|
              invariant 0 <= j <= |c.children|
              invariant datasets == before + seq(j, k requires 0 <= k < j => DataNode(c.children[k]))
              invariant defaultContainerText == defaultName
            {
              assert seq(j + 1, k requires 0 <= k < j + 1 => DataNode(c.children[k]))
                == seq(j, k requires 0 <= k < j => DataNode(c.children[k])) + [DataNode(c.children[j])];
              datasets := datasets + [DataNode(c.children[j])];
              j := j + 1;
            }
          }
          i := i + 1;
          assert cs[..i][..i - 1] == cs[..i - 1];
        }
        assert cs[..|cs|] == cs;
        if cs[0].ProjectObj? && |datasets| == 0 {
          defaultContainerText := NewText;
        }
      }
      ghost var fromContainers := datasets;
      assert fromContainers == (if containers.Some? then ProjectDatasets(containers.value) else []);
      if objects.Some? {
        var os := objects.value;
        var i := 0;
        while i < |os|
          invariant 0 <= i <= |os|
          invariant datasets == fromContainers + OfferedDatasets(os[..i])
          invariant defaultContainerText == LocationDefaultText(containers, defaultName)
        {
          if os[i].DatasetObj? {
            datasets := datasets + [DataNode(os[i].name)];
          }
          i := i + 1;
          assert os[..i][..i - 1] == os[..i - 1];
        }
        assert os[..|os|] == os;
      } else {
        assert datasets == fromContainers + [];
      }
    }

    /** Replaces the displayed tags by their merge with a new selection. */
    method HandleTagsSelection(incoming: seq<Tag>)
      modifies this`tags
      ensures IsMerge(old(tags), incoming, tags)
    {
      tags := MergeTags(tags, incoming);
    }

    /**
     * The remove button of the tag at position `k` was pressed: the tag goes
     * and the remaining tags are merged with themselves.  A press that does
     * not belong to a displayed tag changes nothing.
     */
    method RemoveTag(k: int)
      modifies this`tags
      ensures !(0 <= k < |old(tags)|) ==> tags == old(tags)
      ensures 0 <= k < |old(tags)| ==>
        var rest := old(tags)[..k] + old(tags)[k + 1..];
        IsMerge(rest, rest, tags)
    {
      if 0 <= k < |tags| {
        var rest := tags[..k] + tags[k + 1..];
        tags := MergeTags(rest, rest);
      }
    }

    /**
     * `setTags`: splits the offered tags into those whose id is the id of a
     * saved tag on display and the others; a null offer is ignored.
     */
    method SetTags(offered: Option<seq<Tag>>) returns (choice: Option<TagChoice>)
      ensures offered.None? <==> choice.None?
      ensures choice.Some? ==>
        multiset(choice.value.selected) + multiset(choice.value.available) == multiset(offered.value)
      ensures choice.Some? ==> forall t :: t in choice.value.selected ==> ShownSavedId(tags, t.id)
      ensures choice.Some? ==> forall t :: t in choice.value.available ==> !ShownSavedId(tags, t.id)
    {
      if offered.None? { return None; }
      var ids: seq<int> := [];
      var i := 0;
      while i < |tags|
        invariant 0 <= i <= |tags|
        invariant forall id :: id in ids <==> exists j :: 0 <= j < i && tags[j].id > 0 && tags[j].id == id
      {
        if tags[i].id > 0 {
          ids := ids + [tags[i].id];
        }
        i := i + 1;
      }
      var offer := offered.value;
      var selected: seq<Tag> := [];
      var available: seq<Tag> := [];
      i := 0;
      while i < |offer|
        invariant 0 <= i <= |offer|
        invariant multiset(selected) + multiset(available) == multiset(offer[..i])
        invariant forall t :: t in selected ==> ShownSavedId(tags, t.id)
        invariant forall t :: t in available ==> !ShownSavedId(tags, t.id)
      {
        var t := offer[i];
        if t.id in ids {
          var j :| 0 <= j < |tags| && tags[j].id > 0 && tags[j].id == t.id;
          assert tags[j] in tags;
          selected := selected + [t];
        } else {
          available := available + [t];
        }
        assert offer[..i + 1] == offer[..i] + [t];
        i := i + 1;
      }
      assert offer[..|offer|] == offer;
      choice := Some(TagChoice(selected, available));
    }

    /**
     * Whether a folder chosen for import becomes a container: with no
     * containers, unless this is a screen import; otherwise unless the first
     * container is a screen or a dataset.
     */
    function UseFolderAsContainer(): (use: bool)
      reads this
      ensures containers.None? || containers.value == [] ==> (use <==> importType != ScreenType)
      ensures containers.Some? && containers.value != [] ==>
        (use <==> !containers.value[0].ScreenObj? && !containers.value[0].DatasetObj?)
    {
      if containers.None? || |containers.value| == 0 then
        !(importType == ScreenType)
      else
        var obj := containers.value[0];
        if obj.ScreenObj? then false else !obj.DatasetObj?
    }

    /**
     * A dataset created from the dialog: a null dataset or one with a blank
     * name is ignored; otherwise it is appended to the datasets, and the first
     * one also fills the default-container field.
     */
    method CreateDataset(dataset: Option<DataNode>)
      modifies this`datasets, this`defaultContainerText
      ensures dataset.None? || Blank(dataset.value.datasetName) ==>
        datasets == old(datasets) && defaultContainerText == old(defaultContainerText)
      ensures dataset.Some? && !Blank(dataset.value.datasetName) ==>
        datasets == old(datasets) + [dataset.value]
        && defaultContainerText ==
             (if old(datasets) == [] then dataset.value.datasetName else old(defaultContainerText))
    {
      if dataset.None? { return; }
      TrimEmptyIffBlank(dataset.value.datasetName);
      if |Trim(dataset.value.datasetName)| == 0 { return; }
      var n := |datasets|;
      datasets := datasets + [dataset.value];
      if n == 0 {
        defaultContainerText := dataset.value.datasetName;
      }
    }

    /**
     * `reset`: new containers, objects and import type, the header text for
     * them, the datasets and default-container text `buildLocationPane`
     * leaves for them, and no tags on display.
     */
    method Reset(containers: Option<seq<UserObject>>, objects: Option<seq<UserObject>>,
                 importType: ImportType, defaultName: string)
      modifies this`containers, this`objects, this`importType, this`headerText, this`tags
      modifies this`datasets, this`defaultContainerText
      ensures this.containers == containers && this.objects == objects && this.importType == importType
      ensures headerText == ContainerText(if containers.None? then NullSubject else ListSubject(containers.value))
      ensures datasets == LocationDatasets(containers, objects)
      ensures defaultContainerText == LocationDefaultText(containers, defaultName)
      ensures tags == []
    {
      this.containers := containers;
      this.objects := objects;
      this.importType := importType;
      headerText := ContainerText(if containers.None? then NullSubject else ListSubject(containers.value));
      HandleTagsSelection([]);
      BuildLocationPane(defaultName);
      tags := [];
    }
  }
}
