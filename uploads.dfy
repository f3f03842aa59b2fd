/**
 * The `FileUploader` component and the upload steps that host it. Dropped files become items
 * that start uploading; a simulated timer per dropped file raises its progress until the item
 * is completed. The component keeps its own list and reports it to the page, whose
 * `handleFileChange(k, files)` stores it in the form at `uploads.k`.
 *
 * Which files the drop zone accepts (type and size) is decided by the drop-zone library and is
 * not modelled: `OnDrop` receives the accepted files. The random ids, the random progress steps
 * and the object URLs are parameters.
 */
module Uploads {
  import opened Json
  import opened Form
  import opened Wrappers
  import Schema
  import MenteeSchema
  import SaveApplication

  datatype Status = Uploading | Completed | Error

  function StatusName(s: Status): string {
    match s
    case Uploading => "uploading"
    case Completed => "completed"
    case Error => "error"
  }

  /** The browser's `File`: name, MIME type (possibly empty) and size in bytes. */
  datatype FileMeta = FileMeta(name: string, mime: string, size: nat)

  /** `FileUploadItem` */
  datatype UploadItem = UploadItem(id: string, file: FileMeta, progress: real, status: Status, url: Option<string>)

  /** One running `setInterval`: the item id it updates and its own progress counter. */
  datatype Timer = Timer(id: string, progress: real)

  // ---- the items as form values ----

  function FileValue(f: FileMeta): Value {
    File(f.name, f.mime, f.size)
  }

  function ItemValue(it: UploadItem): Value {
    var fs := map["id" := Str(it.id), "file" := FileValue(it.file), "progress" := Num(it.progress),
                  "status" := Str(StatusName(it.status))];
    Obj(if it.url.Some? then fs["url" := Str(it.url.value)] else fs)
  }

  function ItemValues(items: seq<UploadItem>): (r: seq<Value>)
    ensures |r| == |items| && forall i :: 0 <= i < |items| ==> r[i] == ItemValue(items[i])
  {
    seq(|items|, i requires 0 <= i < |items| => ItemValue(items[i]))
  }

  /** On submission an item reported by the uploader becomes its file's name, MIME type (an empty
      type becomes "application/octet-stream"), size and upload status; id, progress and url
      are dropped. */
  lemma SerializedItem(it: UploadItem, numStr: real -> string)
    ensures SaveApplication.SerializeItem(ItemValue(it), numStr)
         == Obj(map["filename" := Str(it.file.name),
                    "mime" := Str(if it.file.mime == "" then "application/octet-stream" else it.file.mime),
                    "size" := Num(it.file.size as real),
                    "status" := Str(StatusName(it.status))])
  {
    assert Prop(ItemValue(it), "file") == FileValue(it.file);
    assert Prop(ItemValue(it), "status") == Str(StatusName(it.status));
  }

  /** After a reload the item is what JSON gave back: its file is `{}`, so on submission the item
      has no file name, the generic MIME type and size 0, and only its status survives. */
  lemma RestoredItemLosesFile(it: UploadItem, numStr: real -> string)
    ensures SaveApplication.SerializeItem(Reparsed(ItemValue(it)), numStr)
         == Obj(map["filename" := Undefined,
                    "mime" := Str("application/octet-stream"),
                    "size" := Num(0.0),
                    "status" := Str(StatusName(it.status))])
  {
    var fs := ItemValue(it).fields;
    assert "file" in fs && fs["file"] == File(it.file.name, it.file.mime, it.file.size);
    assert "status" in fs && fs["status"] == Str(StatusName(it.status));
    var r := Reparsed(ItemValue(it));
    assert r.fields["file"] == Reparsed(fs["file"]) == Obj(map[]);
    assert r.fields["status"] == Reparsed(fs["status"]);
  }

  // ---- the list a drop produces ----

  /** `xs.slice(0, end)`: a negative end counts from the back. */
  function SliceTo<T>(xs: seq<T>, end: int): (r: seq<T>)
    ensures |r| <= |xs| && r == xs[..|r|]
    ensures end >= 0 ==> |r| == (if end < |xs| then end else |xs|)
    ensures end < 0 ==> |r| == (if |xs| + end > 0 then |xs| + end else 0)
  {
    if end >= 0 then (if end < |xs| then xs[..end] else xs)
    else if |xs| + end > 0 then xs[..|xs| + end] else []
  }

  /** The new items of a drop: progress 0 and status 'uploading', one per accepted file. */
  function NewItems(files: seq<FileMeta>, ids: seq<string>): (r: seq<UploadItem>)
    requires |ids| == |files|
    ensures |r| == |files|
    ensures forall i :: 0 <= i < |r| ==> r[i] == UploadItem(ids[i], files[i], 0.0, Uploading, None)
  {
    seq(|files|, i requires 0 <= i < |files| => UploadItem(ids[i], files[i], 0.0, Uploading, None))
  }

  /** `allFiles.slice(0, maxFiles)` where `allFiles` is the old list followed by the new items in
      multiple mode and the new items alone otherwise. */
  function Dropped<T>(existing: seq<T>, news: seq<T>, multiple: bool, maxFiles: int): (r: seq<T>)
    ensures |r| <= (if multiple then |existing| + |news| else |news|)
    ensures multiple ==> r == (existing + news)[..|r|]
    ensures !multiple ==> r == news[..|r|]
    ensures maxFiles >= 0 ==> |r| <= maxFiles
  {
    SliceTo(if multiple then existing + news else news, maxFiles)
  }

  /** `disabled: !multiple && uploadingFiles.length >= maxFiles`: a single-file zone holding as
      many items as it allows takes no more drops. */
  predicate DropDisabled(count: int, multiple: bool, maxFiles: int) {
    !multiple && count >= maxFiles
  }

  /** In multiple mode the items already listed take priority: new items only fill the room
      left below `maxFiles`, and a full list ignores the drop. */
  lemma DropKeepsExisting<T>(existing: seq<T>, news: seq<T>, maxFiles: int)
    requires maxFiles >= 0
    ensures |existing| >= maxFiles ==> Dropped(existing, news, true, maxFiles) == existing[..maxFiles]
    ensures |existing| < maxFiles ==>
      var r := Dropped(existing, news, true, maxFiles);
      r[..|existing|] == existing
      && |r| == (if |existing| + |news| < maxFiles then |existing| + |news| else maxFiles)
  {
    var all := existing + news;
    if |existing| >= maxFiles {
      assert all[..maxFiles] == existing[..maxFiles];
    } else {
      assert all[..|existing|] == existing;
    }
  }

  /** In single mode the drop replaces the list: a single slot holds the first new item. */
  lemma DropReplacesInSingleMode<T>(existing: seq<T>, news: seq<T>)
    requires news != []
    ensures Dropped(existing, news, false, 1) == [news[0]]
  {
  }

  // ---- removal by id ----

  /** `files.filter(f => f.id !== id)` */
  function RemoveById(files: seq<UploadItem>, id: string): (r: seq<UploadItem>)
    ensures |r| <= |files|
    ensures forall f :: f in r <==> f in files && f.id != id
    ensures (forall f :: f in files ==> f.id != id) ==> r == files
  {
    if files == [] then []
    else if files[|files| - 1].id == id then RemoveById(files[..|files| - 1], id)
    else
      var r := RemoveById(files[..|files| - 1], id) + [files[|files| - 1]];
      assert files == files[..|files| - 1] + [files[|files| - 1]];
      r
  }

  /** Removing is idempotent, and removal of one id keeps the items of every other id in place. */
  lemma {:induction false} RemoveByIdTwice(files: seq<UploadItem>, id: string, other: string)
    ensures RemoveById(RemoveById(files, id), id) == RemoveById(files, id)
    ensures RemoveById(RemoveById(files, id), other) == RemoveById(RemoveById(files, other), id)
  {
    if files != [] {
      var init := files[..|files| - 1];
      RemoveByIdTwice(init, id, other);
      var last := files[|files| - 1];
      if last.id == id {
        if last.id != other {
          var t := RemoveById(init, other) + [last];
          assert t[..|t| - 1] == RemoveById(init, other);
        }
      } else if last.id == other {
        var t := RemoveById(init, id) + [last];
        assert t[..|t| - 1] == RemoveById(init, id);
      } else {
        var t := RemoveById(init, id) + [last];
        assert t[..|t| - 1] == RemoveById(init, id);
        var u := RemoveById(init, other) + [last];
        assert u[..|u| - 1] == RemoveById(init, other);
      }
    }
  }

  // ---- progress ----

  /** One tick of a timer: `progress += Math.random() * 30`, with completion at 100. */
  function Advance(progress: real, delta: real): (r: real)
    requires 0.0 <= delta < 30.0
    ensures progress <= 100.0 ==> progress <= r <= 100.0
    ensures r == 100.0 <==> progress + delta >= 100.0
  {
    if progress + delta >= 100.0 then 100.0 else progress + delta
  }

  /** `prev.map(f => f.id === id ? {...f, progress} : f)` */
  function WithProgress(files: seq<UploadItem>, id: string, p: real): (r: seq<UploadItem>)
    ensures |r| == |files|
    ensures forall j :: 0 <= j < |r| ==> r[j] == if files[j].id == id then files[j].(progress := p) else files[j]
  {
    seq(|files|, j requires 0 <= j < |files| => if files[j].id == id then files[j].(progress := p) else files[j])
  }

  /** `prev.map(f => f.id === id ? {...f, progress: 100, status: 'completed', url} : f)` */
  function WithCompleted(files: seq<UploadItem>, id: string, url: string): (r: seq<UploadItem>)
    ensures |r| == |files|
    ensures forall j :: 0 <= j < |r| ==> r[j] == if files[j].id == id
      then files[j].(progress := 100.0, status := Completed, url := Some(url)) else files[j]
  {
    seq(|files|, j requires 0 <= j < |files| =>
      if files[j].id == id then files[j].(progress := 100.0, status := Completed, url := Some(url)) else files[j])
  }

  /** No item is in the error state. */
  predicate NoErrors(files: seq<UploadItem>) {
    forall f :: f in files ==> f.status != Error
  }

  /** None of the list operations ever produces an item in the error state. */
  lemma NothingErrs(files: seq<UploadItem>, news: seq<FileMeta>, ids: seq<string>, multiple: bool, maxFiles: int,
                    id: string, p: real, url: string)
    requires |ids| == |news| && NoErrors(files)
    ensures NoErrors(Dropped(files, NewItems(news, ids), multiple, maxFiles))
    ensures NoErrors(WithProgress(files, id, p)) && NoErrors(WithCompleted(files, id, url))
    ensures NoErrors(RemoveById(files, id))
  {
    var r := Dropped(files, NewItems(news, ids), multiple, maxFiles);
    forall f | f in r ensures f.status != Error {
      var j :| 0 <= j < |r| && r[j] == f;
      if multiple {
        assert f == (files + NewItems(news, ids))[j];
        if j >= |files| { assert f == NewItems(news, ids)[j - |files|]; }
        else { assert f == files[j]; }
      } else {
        assert f == NewItems(news, ids)[j];
      }
    }
    forall f | f in WithProgress(files, id, p) ensures f.status != Error {
      var j :| 0 <= j < |files| && WithProgress(files, id, p)[j] == f;
      assert files[j] in files;
    }
    forall f | f in WithCompleted(files, id, url) ensures f.status != Error {
      var j :| 0 <= j < |files| && WithCompleted(files, id, url)[j] == f;
      assert files[j] in files;
    }
  }

  // ---- the component ----

  /** The form path `handleFileChange(k, …)` writes. */
  function SlotPath(key: string): seq<string> {
    ["uploads", key]
  }

  /** `handleFileChange(k, files)` of mentee step 7 and mentor step 6: `setValue('uploads.' + k, files)`. */
  method HandleFileChange(form: FormStore, key: string, files: Value)
    modifies form
    ensures GetPath(form.values, SlotPath(key)) == files
    ensures forall q :: Diverge(SlotPath(key), q) ==> GetPath(form.values, q) == GetPath(old(form.values), q)
  {
    form.SetValue(SlotPath(key), files);
  }

  /** A drop that reports at least one item completes a required slot for the step schema, even
      while the items are still uploading: the schema does not look at the items. */
  lemma UploadingSlotPasses(items: seq<UploadItem>, msg: string, fmt: Schema.Formats)
    requires items != []
    ensures Schema.Conforms(MenteeSchema.RequiredFiles(msg), Arr(ItemValues(items)), fmt)
  {
    MenteeSchema.RequiredFilesMeans(msg, Arr(ItemValues(items)), fmt);
  }

  // ---- the timers and the items they drive ----

  /** Each running timer's counter agrees with the items of its id, which are still uploading;
      every counter is below 100 and two timers never share an id. */
  predicate Synced(timers: seq<Timer>, files: seq<UploadItem>) {
    (forall t, f :: t in timers && f in files && f.id == t.id ==> f.status == Uploading && f.progress == t.progress)
    && (forall t :: t in timers ==> 0.0 <= t.progress < 100.0)
    && (forall i, j :: 0 <= i < j < |timers| ==> timers[i].id != timers[j].id)
  }

  /** The ids a drop hands out are new: distinct, and unused by any listed item or running timer. */
  predicate FreshIds(ids: seq<string>, files: seq<UploadItem>, timers: seq<Timer>) {
    (forall i, j :: 0 <= i < j < |ids| ==> ids[i] != ids[j])
    && (forall i, f :: 0 <= i < |ids| && f in files ==> f.id != ids[i])
    && (forall i, t :: 0 <= i < |ids| && t in timers ==> t.id != ids[i])
  }

  /** The timers a drop starts, one per new item, each at 0. */
  function Started(ids: seq<string>): (r: seq<Timer>)
    ensures |r| == |ids| && forall i :: 0 <= i < |ids| ==> r[i] == Timer(ids[i], 0.0)
  {
    seq(|ids|, i requires 0 <= i < |ids| => Timer(ids[i], 0.0))
  }

  /** A drop lists nothing but old items and new ones. */
  lemma DroppedFrom<T>(existing: seq<T>, news: seq<T>, multiple: bool, maxFiles: int)
    ensures forall f :: f in Dropped(existing, news, multiple, maxFiles) ==> f in existing || f in news
  {
    var r := Dropped(existing, news, multiple, maxFiles);
    forall f | f in r ensures f in existing || f in news {
      var j :| 0 <= j < |r| && r[j] == f;
      if multiple {
        if j < |existing| { assert f == existing[j]; } else { assert f == news[j - |existing|]; }
      } else {
        assert f == news[j];
      }
    }
  }

  /** A drop with fresh ids keeps the timers in step with the items. */
  lemma DropKeepsSynced(timers: seq<Timer>, files: seq<UploadItem>, accepted: seq<FileMeta>, ids: seq<string>,
                        multiple: bool, maxFiles: int)
    requires |ids| == |accepted| && Synced(timers, files) && FreshIds(ids, files, timers)
    ensures Synced(timers + Started(ids), Dropped(files, NewItems(accepted, ids), multiple, maxFiles))
  {
    var news := NewItems(accepted, ids);
    var r := Dropped(files, news, multiple, maxFiles);
    var started := Started(ids);
    DroppedFrom(files, news, multiple, maxFiles);
    forall t, f | t in timers + started && f in r && f.id == t.id
      ensures f.status == Uploading && f.progress == t.progress
    {
      if f in news {
        var a :| 0 <= a < |news| && news[a] == f;
        assert t !in timers;
        var b :| 0 <= b < |started| && started[b] == t;
      }
    }
    forall i, j | 0 <= i < j < |timers + started| ensures (timers + started)[i].id != (timers + started)[j].id {
      if j >= |timers| && i < |timers| {
        assert timers[i] in timers;
      }
    }
  }

  /** A tick below 100 raises the items of its timer to the new counter and keeps the rest. */
  lemma ProgressKeepsSynced(timers: seq<Timer>, files: seq<UploadItem>, k: nat, p: real)
    requires k < |timers| && Synced(timers, files) && timers[k].progress <= p < 100.0
    ensures Synced(timers[k := Timer(timers[k].id, p)], WithProgress(files, timers[k].id, p))
    ensures forall j :: 0 <= j < |files| ==> files[j].progress <= WithProgress(files, timers[k].id, p)[j].progress
  {
    var id := timers[k].id;
    var r := WithProgress(files, id, p);
    var ts := timers[k := Timer(id, p)];
    forall j | 0 <= j < |files| ensures files[j].progress <= r[j].progress {
      assert files[j] in files;
    }
    forall u, f | u in ts && f in r && f.id == u.id ensures f.status == Uploading && f.progress == u.progress {
      var j :| 0 <= j < |r| && r[j] == f;
      var i :| 0 <= i < |ts| && ts[i] == u;
      assert files[j] in files;
      if i != k { assert u == timers[i]; }
    }
    forall u | u in ts ensures 0.0 <= u.progress < 100.0 {
      var i :| 0 <= i < |ts| && ts[i] == u;
    }
  }

  /** Stopping timer `k` leaves the other timers, each with an id other than its own. */
  lemma StopTimer(timers: seq<Timer>, k: nat)
    requires k < |timers| && forall i, j :: 0 <= i < j < |timers| ==> timers[i].id != timers[j].id
    ensures var rest := timers[..k] + timers[k + 1..];
      (forall u :: u in rest ==> u in timers && u.id != timers[k].id)
      && (forall i, j :: 0 <= i < j < |rest| ==> rest[i].id != rest[j].id)
  {
    var rest := timers[..k] + timers[k + 1..];
    forall u | u in rest ensures u in timers && u.id != timers[k].id {
      var i :| 0 <= i < |rest| && rest[i] == u;
      if i < k { assert u == timers[i]; } else { assert u == timers[i + 1]; }
    }
    forall i, j | 0 <= i < j < |rest| ensures rest[i].id != rest[j].id {
      var i' := if i < k then i else i + 1;
      var j' := if j < k then j else j + 1;
      assert rest[i] == timers[i'] && rest[j] == timers[j'];
    }
  }

  /** The last tick completes the items of its timer and stops it; the other timers are unaffected. */
  lemma CompleteKeepsSynced(timers: seq<Timer>, files: seq<UploadItem>, k: nat, url: string)
    requires k < |timers| && Synced(timers, files)
    ensures Synced(timers[..k] + timers[k + 1..], WithCompleted(files, timers[k].id, url))
    ensures forall j :: 0 <= j < |files| ==> files[j].progress <= WithCompleted(files, timers[k].id, url)[j].progress
  {
    var id := timers[k].id;
    var r := WithCompleted(files, id, url);
    var rest := timers[..k] + timers[k + 1..];
    StopTimer(timers, k);
    forall j | 0 <= j < |files| ensures files[j].progress <= r[j].progress {
      assert files[j] in files && timers[k] in timers;
    }
    forall u, f | u in rest && f in r && f.id == u.id ensures f.status == Uploading && f.progress == u.progress {
      var j :| 0 <= j < |r| && r[j] == f;
      assert f == files[j] && files[j] in files;
    }
  }

  /** Removing items leaves every timer's items in step. */
  lemma RemoveKeepsSynced(timers: seq<Timer>, files: seq<UploadItem>, id: string)
    requires Synced(timers, files)
    ensures Synced(timers, RemoveById(files, id))
  {
  }

  class FileUploader {
    const form: FormStore
    const key: string
    const multiple: bool
    const maxFiles: int
    /** `uploadingFiles` */
    var files: seq<UploadItem>
    /** The timers still running. */
    var timers: seq<Timer>

    /** The drop zone is disabled iff `!multiple && uploadingFiles.length >= maxFiles`. */
    predicate Disabled()
      reads this
    {
      DropDisabled(|files|, multiple, maxFiles)
    }

    /** The list starts as the `value` passed in, and no timer runs. */
    constructor(form: FormStore, key: string, multiple: bool, maxFiles: int, value: seq<UploadItem>)
      ensures this.form == form && this.key == key && this.multiple == multiple && this.maxFiles == maxFiles
      ensures files == value && timers == []
      ensures Synced(timers, files)
    {
      this.form := form;
      this.key := key;
      this.multiple := multiple;
      this.maxFiles := maxFiles;
      files := value;
      timers := [];
    }

    /** A drop onto the zone. A disabled zone ignores it. Otherwise `onDrop(acceptedFiles)` runs:
        the new list is stored and reported to the form, and one timer starts for every new item,
        including any cut off by `maxFiles`. */
    method OnDrop(accepted: seq<FileMeta>, ids: seq<string>)
      requires |ids| == |accepted| && Synced(timers, files) && FreshIds(ids, files, timers)
      modifies this, form
      ensures old(Disabled()) ==> files == old(files) && timers == old(timers) && form.values == old(form.values)
      ensures !old(Disabled()) ==>
        files == Dropped(old(files), NewItems(accepted, ids), multiple, maxFiles)
        && timers == old(timers) + Started(ids)
        && form.values == SetPath(old(form.values), SlotPath(key), Arr(ItemValues(files)))
      ensures Synced(timers, files)
      ensures old(NoErrors(files)) ==> NoErrors(files)
    {
      if Disabled() {
        return;
      }
      if NoErrors(files) { NothingErrs(files, accepted, ids, multiple, maxFiles, "", 0.0, ""); }
      DropKeepsSynced(timers, files, accepted, ids, multiple, maxFiles);
      files := Dropped(files, NewItems(accepted, ids), multiple, maxFiles);
      timers := timers + Started(ids);
      form.SetValue(SlotPath(key), Arr(ItemValues(files)));
    }

    /** One interval tick of timer `k`: the items of its id take the new progress, or become
        completed with their object URL once it reaches 100, which stops the timer. Progress
        never falls. The form is not told. */
    method Tick(k: nat, delta: real, url: string)
      requires k < |timers| && 0.0 <= delta < 30.0 && Synced(timers, files)
      modifies this
      ensures var t := old(timers[k]);
        var p := Advance(t.progress, delta);
        if p == 100.0 then files == WithCompleted(old(files), t.id, url) && timers == old(timers[..k] + timers[k + 1..])
        else files == WithProgress(old(files), t.id, p) && timers == old(timers[k := Timer(t.id, p)])
      ensures Synced(timers, files)
      ensures |files| == old(|files|) && forall j :: 0 <= j < |files| ==> old(files[j].progress) <= files[j].progress
      ensures old(NoErrors(files)) ==> NoErrors(files)
    {
      var t := timers[k];
      var p := Advance(t.progress, delta);
      assert t in timers;
      if NoErrors(files) { NothingErrs(files, [], [], false, 0, t.id, p, url); }
      if p == 100.0 {
        CompleteKeepsSynced(timers, files, k, url);
        files := WithCompleted(files, t.id, url);
        timers := timers[..k] + timers[k + 1..];
      } else {
        ProgressKeepsSynced(timers, files, k, p);
        files := WithProgress(files, t.id, p);
        timers := timers[k := Timer(t.id, p)];
      }
    }

    /** `removeFile(id)`: the list without that id, reported to the form. The timers run on. */
    method RemoveFile(id: string)
      requires Synced(timers, files)
      modifies this, form
      ensures files == RemoveById(old(files), id) && timers == old(timers)
      ensures form.values == SetPath(old(form.values), SlotPath(key), Arr(ItemValues(files)))
      ensures Synced(timers, files)
      ensures old(NoErrors(files)) ==> NoErrors(files)
    {
      files := RemoveById(files, id);
      form.SetValue(SlotPath(key), Arr(ItemValues(files)));
    }
  }

  // ---- the slots of the upload steps ----

  datatype FileKind = Pdf | Docx | Png | Jpeg

  /** The props one step passes to one `FileUploader`. */
  datatype SlotConfig = SlotConfig(key: string, maxFiles: int, multiple: bool, required: bool, accept: set<FileKind>)

  /** Mentee step 7. */
  const MenteeSlots: seq<SlotConfig> := [
    SlotConfig("coverLetter", 1, false, true, {Pdf, Docx}),
    SlotConfig("orgChart", 1, false, true, {Pdf, Png, Jpeg}),
    SlotConfig("personalBioOrResume", 1, false, true, {Pdf, Docx}),
    SlotConfig("businessDescription", 1, false, true, {Pdf, Docx}),
    SlotConfig("releaseGeneral", 1, false, true, {Pdf}),
    SlotConfig("releaseInfoAuthorization", 1, false, true, {Pdf}),
    SlotConfig("releaseApplicationInfo", 1, false, true, {Pdf}),
    SlotConfig("headshot", 1, false, false, {Png, Jpeg})
  ]

  /** Mentor step 6. */
  const MentorSlots: seq<SlotConfig> := [
    SlotConfig("bio", 1, false, true, {Pdf, Docx}),
    SlotConfig("headshot", 1, false, false, {Png, Jpeg}),
    SlotConfig("additionalDocs", 5, true, false, {Pdf, Docx, Png, Jpeg})
  ]

  /** The keys of the slots marked `required`. */
  function RequiredKeys(slots: seq<SlotConfig>): (r: set<string>)
    ensures forall i :: 0 <= i < |slots| && slots[i].required ==> slots[i].key in r
    ensures forall k :: k in r ==> exists i :: 0 <= i < |slots| && slots[i].required && slots[i].key == k
  {
    set i | 0 <= i < |slots| && slots[i].required :: slots[i].key
  }

  /** The slots marked required on mentee step 7 are exactly the ones the step schema requires:
      every slot but the headshot. Every mentee slot holds a single file. */
  lemma MenteeSlotsMatchSchema()
    ensures RequiredKeys(MenteeSlots) == MenteeSchema.RequiredSlots
    ensures forall i :: 0 <= i < |MenteeSlots| ==> !MenteeSlots[i].multiple && MenteeSlots[i].maxFiles == 1
  {
    MenteeRequiredWithin();
    MenteeRequiredCovers();
    MenteeSlotsSingle();
  }

  lemma MenteeRequiredWithin()
    ensures RequiredKeys(MenteeSlots) <= MenteeSchema.RequiredSlots
  {
    var s := MenteeSlots;
    forall k | k in RequiredKeys(s) ensures k in MenteeSchema.RequiredSlots {
      var i :| 0 <= i < |s| && s[i].required && s[i].key == k;
    }
  }

  lemma MenteeRequiredCovers()
    ensures MenteeSchema.RequiredSlots <= RequiredKeys(MenteeSlots)
  {
    var s := MenteeSlots;
    assert s[0].key == "coverLetter" && s[0].required;
    assert s[1].key == "orgChart" && s[1].required;
    assert s[2].key == "personalBioOrResume" && s[2].required;
    assert s[3].key == "businessDescription" && s[3].required;
    assert s[4].key == "releaseGeneral" && s[4].required;
    assert s[5].key == "releaseInfoAuthorization" && s[5].required;
    assert s[6].key == "releaseApplicationInfo" && s[6].required;
  }

  lemma MenteeSlotsSingle()
    ensures forall i :: 0 <= i < |MenteeSlots| ==> !MenteeSlots[i].multiple && MenteeSlots[i].maxFiles == 1
  {
  }

  /** Mentor step 6 requires the bio only; its additional documents take up to five files. */
  lemma MentorSlotsShape()
    ensures RequiredKeys(MentorSlots) == {"bio"}
    ensures forall i :: 0 <= i < |MentorSlots| ==> (MentorSlots[i].multiple <==> MentorSlots[i].key == "additionalDocs")
    ensures MentorSlots[2].maxFiles == 5
  {
    var s := MentorSlots;
    forall k | k in RequiredKeys(s) ensures k == "bio" {
      var i :| 0 <= i < |s| && s[i].required && s[i].key == k;
    }
    assert s[0].required;
  }

  /** A drop of at least one file fills any single-file slot of either step, so its drop zone
      is then disabled. */
  lemma SingleSlotFullAfterDrop<T>(c: SlotConfig, existing: seq<T>, news: seq<T>)
    requires (c in MenteeSlots || c in MentorSlots) && !c.multiple && news != []
    ensures |Dropped(existing, news, c.multiple, c.maxFiles)| == 1 == c.maxFiles
    ensures DropDisabled(|Dropped(existing, news, c.multiple, c.maxFiles)|, c.multiple, c.maxFiles)
  {
  }

  /** The drop zone of a slot of either step is disabled exactly when the slot holds a single file
      and already has one: a filled single-file slot keeps its file, and the multi-file slot
      always takes a drop, keeping at most `maxFiles` items. */
  lemma SlotDisabledIffFull(c: SlotConfig, count: nat)
    requires c in MenteeSlots || c in MentorSlots
    ensures DropDisabled(count, c.multiple, c.maxFiles) <==> !c.multiple && count >= 1
  {
    MenteeSlotsSingle();
    if c in MentorSlots {
      var i :| 0 <= i < |MentorSlots| && MentorSlots[i] == c;
    }
  }
}
