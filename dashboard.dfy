/** The dashboard's form actions: the `process` request gate, the per-file options and
    charges, and the history `delete` and `togglePermanent` actions. */
module Dashboard {
  import opened Wrappers
  import opened Text
  import opened Web
  import opened Db
  import opened Credits
  import opened Users
  import opened Storage
  import opened Images
  import opened Ai

  const DEFAULT_QUALITY: int := 80
  const DEFAULT_POSITION: string := "southeast"

  /** An entry of `IMAGE_ACTIONS`. */
  datatype ImageAction = ImageAction(value: string, caption: string, minTier: string)

  /** What the dashboard takes from `$lib/constants` (not part of this model) together with
      `parseInt`, whose `None` is `NaN`. `maxQuality(tier)` is `TIER_LIMITS[tier].maxQuality`. */
  datatype Catalogue = Catalogue(
    actions: seq<ImageAction>,
    isFeatureAllowed: (string, string) -> bool,
    maxQuality: string -> int,
    parseInt: string -> Option<int>)

  /** The submitted form; an absent field is `None`. */
  datatype ProcessForm = ProcessForm(
    images: seq<UploadedFile>,
    action: Option<string>,
    format: Option<string>,
    quality: Option<string>,
    width: Option<string>,
    height: Option<string>,
    watermark: Option<UploadedFile>,
    watermarkText: Option<string>,
    watermarkPosition: Option<string>,
    stripMetadata: Option<string>,
    generateAltText: Option<string>,
    upscale: Option<string>,
    smartCompression: Option<string>)

  datatype FileResult = FileResult(
    url: string,
    downloadUrl: string,
    originalSize: nat,
    newSize: nat,
    format: string,
    altText: Option<string>)

  datatype ProcessResponse = Rejected(failure: Fail) | Processed(newCredits: int, results: seq<FileResult>)

  /** `IMAGE_ACTIONS.find(a => a.value === type)`. */
  function SelectedAction(actions: seq<ImageAction>, action: Option<string>): (r: Option<nat>)
    ensures r.Some? ==>
      && r.value < |actions| && action == Some(actions[r.value].value)
      && forall j :: 0 <= j < r.value ==> Some(actions[j].value) != action
    ensures r.None? ==> forall j :: 0 <= j < |actions| ==> Some(actions[j].value) != action
  {
    if actions == [] then None
    else if Some(actions[0].value) == action then Some(0)
    else match SelectedAction(actions[1..], action)
      case None => None
      case Some(k) => Some(k + 1)
  }

  /** `parseInt(quality) || 80`: 80 when the field is absent, unparsable or zero. */
  function InitialQuality(quality: Option<string>, parseInt: string -> Option<int>): (q: int)
    ensures q != 0
    ensures quality.Some? && parseInt(quality.value).Some? && parseInt(quality.value).value != 0
            ==> q == parseInt(quality.value).value
    ensures quality.None? || parseInt(quality.value).None? || parseInt(quality.value) == Some(0)
            ==> q == DEFAULT_QUALITY
  {
    if quality.Some? && parseInt(quality.value).Some? && parseInt(quality.value).value != 0
    then parseInt(quality.value).value
    else DEFAULT_QUALITY
  }

  /** The quality cap of the tier. */
  function CappedQuality(q: int, maxQuality: int): (r: int)
    ensures r <= maxQuality && r <= q
    ensures r == q || r == maxQuality
  {
    if q > maxQuality then maxQuality else q
  }

  /** Why `process` refuses a request, checked in the order of the source: no user (401),
      an action the tier may not use (403), no images or an empty first image (400), fewer
      credits than images (400). `Success` carries the capped quality. */
  function Gate(s: State, locals: Option<LocalUser>, form: ProcessForm, cat: Catalogue): (r: Result<int, Fail>)
    ensures locals.None? ==> r == Failure(Fail(401, "Unauthorized"))
    ensures locals.Some? ==>
      var tier := TierOf(locals.value);
      var sel := SelectedAction(cat.actions, form.action);
      if sel.Some? && !cat.isFeatureAllowed(tier, cat.actions[sel.value].minTier) then
        r == Failure(Fail(403, "Feature \"" + cat.actions[sel.value].caption + "\" required Pro plan."))
      else if |form.images| == 0 || form.images[0].Size() == 0 then
        r == Failure(Fail(400, "No images selected"))
      else if Balance(s, locals.value.id) < |form.images| then
        r == Failure(Fail(400, "Insufficient credits."))
      else
        r == Success(CappedQuality(InitialQuality(form.quality, cat.parseInt), cat.maxQuality(tier)))
  {
    if locals.None? then Failure(Fail(401, "Unauthorized"))
    else
      var user := locals.value;
      var tier := TierOf(user);
      var sel := SelectedAction(cat.actions, form.action);
      if sel.Some? && !cat.isFeatureAllowed(tier, cat.actions[sel.value].minTier) then
        Failure(Fail(403, "Feature \"" + cat.actions[sel.value].caption + "\" required Pro plan."))
      else
        var quality := CappedQuality(InitialQuality(form.quality, cat.parseInt), cat.maxQuality(tier));
        if |form.images| == 0 || form.images[0].Size() == 0 then Failure(Fail(400, "No images selected"))
        else if UserCredits(s, user.id) < |form.images| then Failure(Fail(400, "Insufficient credits."))
        else Success(quality)
  }

  /** The permission check comes first: a refused action is refused whatever the stored
      credits and whatever files were sent. */
  lemma PermissionPrecedesCredits(s1: State, s2: State, locals: Option<LocalUser>, f1: ProcessForm, f2: ProcessForm,
                                  cat: Catalogue)
    requires f1.action == f2.action
    requires Gate(s1, locals, f1, cat).Failure? && Gate(s1, locals, f1, cat).error.status == 403
    ensures Gate(s2, locals, f2, cat) == Gate(s1, locals, f1, cat)
  {
  }

  /** A request the gate lets through comes from a stored user who can pay one credit for
      every image. */
  lemma AdmittedCanPay(s: State, locals: Option<LocalUser>, form: ProcessForm, cat: Catalogue)
    requires Gate(s, locals, form, cat).Success?
    ensures locals.Some? && HasUser(s, locals.value.id)
    ensures |form.images| >= 1 && Balance(s, locals.value.id) >= |form.images|
  {
  }

  /** A dimension field: parsed when present and not empty, otherwise absent. */
  function Dimension(raw: Option<string>, parseInt: string -> Option<int>): Option<int> {
    if Truthy(raw) then parseInt(raw.value) else None
  }

  /** A number JavaScript counts as true: a parsed, non-zero value. */
  predicate TruthyNumber(n: Option<int>) {
    n.Some? && n.value != 0
  }

  /** The options passed to `ImageService.process` for one file. */
  function FileOptions(form: ProcessForm, file: UploadedFile, quality: int, userId: Id, cat: Catalogue): (o: ProcessInput)
    ensures o.file == file && o.userId == userId && o.targetFormat == form.format
    ensures Truthy(form.action) ==> o.processType == form.action.value
    ensures !Truthy(form.action) ==> o.processType == COMPRESS
    ensures form.smartCompression == Some("true") ==> o.quality == SuggestCompression(form.format.GetOr(""), file.Size())
    ensures form.smartCompression != Some("true") ==> o.quality == quality
    ensures o.resize.Some? <==>
      TruthyNumber(Dimension(form.width, cat.parseInt)) || TruthyNumber(Dimension(form.height, cat.parseInt))
    ensures o.watermark.Some? <==>
      (form.watermark.Some? && form.watermark.value.Size() > 0) || Truthy(form.watermarkText)
    ensures o.watermark.Some? ==>
      && (o.watermark.value.file.Some? <==> form.watermark.Some? && form.watermark.value.Size() > 0)
      && (o.watermark.value.text.Some? <==> Truthy(form.watermarkText))
      && (Truthy(form.watermarkPosition) ==> o.watermark.value.position == form.watermarkPosition.value)
      && (!Truthy(form.watermarkPosition) ==> o.watermark.value.position == DEFAULT_POSITION)
    ensures o.stripMetadata <==> form.stripMetadata == Some("on")
    ensures o.upscale <==> form.upscale == Some("true")
  {
    var width := Dimension(form.width, cat.parseInt);
    var height := Dimension(form.height, cat.parseInt);
    var hasWatermarkFile := form.watermark.Some? && form.watermark.value.Size() > 0;
    ProcessInput(
      file,
      if Truthy(form.action) then form.action.value else COMPRESS,
      form.format,
      userId,
      if form.smartCompression == Some("true") then SuggestCompression(form.format.GetOr(""), file.Size()) else quality,
      if TruthyNumber(width) || TruthyNumber(height) then Some(Resize(width, height)) else None,
      form.stripMetadata == Some("on"),
      form.upscale == Some("true"),
      if hasWatermarkFile || Truthy(form.watermarkText) then
        Some(Watermark(if hasWatermarkFile then form.watermark else None,
                       if Truthy(form.watermarkText) then form.watermarkText else None,
                       if Truthy(form.watermarkPosition) then form.watermarkPosition.value else DEFAULT_POSITION))
      else None)
  }

  /** What `ImageService.process` does for image `i` of the form. */
  function FileEffect(form: ProcessForm, i: nat, quality: int, userId: Id, cat: Catalogue, codec: Codec,
                      clock: nat -> nat): Effect
    requires i < |form.images|
  {
    Outcome(FileOptions(form, form.images[i], quality, userId, cat), codec, clock(i))
  }

  /** Whether `ImageService.process` returns a result for image `i` of the form. */
  predicate Processes(form: ProcessForm, i: nat, quality: int, userId: Id, cat: Catalogue, codec: Codec,
                      clock: nat -> nat)
    requires i < |form.images|
  {
    FileEffect(form, i, quality, userId, cat, codec, clock).result.Success?
  }

  /** The message `ImageService.process` throws for image `i`. */
  function ThrownBy(form: ProcessForm, i: nat, quality: int, userId: Id, cat: Catalogue, codec: Codec,
                    clock: nat -> nat): string
    requires i < |form.images| && !Processes(form, i, quality, userId, cat, codec, clock)
  {
    FileEffect(form, i, quality, userId, cat, codec, clock).result.error
  }

  /** The entry of `results` for a processed image, with its alt text when the form asks
      for one. */
  function Entry(form: ProcessForm, file: UploadedFile, out: ProcessOutput): FileResult {
    FileResult(out.publicUrl, out.downloadUrl, out.originalSize, out.newSize, out.format,
               if form.generateAltText == Some("true")
               then Some(AltText(file.name, form.format.GetOr(""), file.Size())) else None)
  }

  /** The objects after an upload that may not have happened. */
  function WithStored(objects: map<string, StoredObject>, stored: Option<(string, StoredObject)>)
    : map<string, StoredObject>
  {
    if stored.Some? then objects[stored.value.0 := stored.value.1] else objects
  }

  /** What `ImageService.process` does for images `0 .. n - 1`, in order. */
  function EffectsUpTo(form: ProcessForm, n: nat, quality: int, userId: Id, cat: Catalogue, codec: Codec,
                       clock: nat -> nat): (r: seq<Effect>)
    requires n <= |form.images|
    ensures |r| == n
  {
    if n == 0 then []
    else EffectsUpTo(form, n - 1, quality, userId, cat, codec, clock) + [FileEffect(form, n - 1, quality, userId, cat, codec, clock)]
  }

  /** Entry `j` of `EffectsUpTo(n)` is what `ImageService.process` does for image `j`. */
  lemma {:induction false} EffectsUpToAt(form: ProcessForm, n: nat, quality: int, userId: Id, cat: Catalogue,
                                         codec: Codec, clock: nat -> nat, j: nat)
    requires j < n <= |form.images|
    ensures EffectsUpTo(form, n, quality, userId, cat, codec, clock)[j] == FileEffect(form, j, quality, userId, cat, codec, clock)
  {
    if j < n - 1 {
      EffectsUpToAt(form, n - 1, quality, userId, cat, codec, clock, j);
    }
  }

  /** Every one of the calls returned a record. */
  predicate Succeeded(effects: seq<Effect>) {
    forall j :: 0 <= j < |effects| ==> effects[j].result.Success?
  }

  /** The records the calls returned, in order. */
  function Outputs(effects: seq<Effect>): (r: seq<ProcessOutput>)
    requires Succeeded(effects)
    ensures |r| == |effects|
    ensures forall j :: 0 <= j < |effects| ==> r[j] == effects[j].result.value
  {
    if effects == [] then []
    else Outputs(effects[..|effects| - 1]) + [effects[|effects| - 1].result.value]
  }

  /** The objects after the calls' uploads, in order. */
  function StoredAll(objects: map<string, StoredObject>, effects: seq<Effect>): map<string, StoredObject> {
    if effects == [] then objects
    else WithStored(StoredAll(objects, effects[..|effects| - 1]), effects[|effects| - 1].stored)
  }
  /** The database after one `recordActivity` per processed image, in order: image `k`
      with its stored key and public URL, at its own time `clock(k)`. A charge that fails
      leaves the database as it was. */
  function Charges(s0: State, userId: Id, action: Option<string>, format: Option<string>, outs: seq<ProcessOutput>,
                   clock: nat -> nat): State
  {
    if outs == [] then s0
    else
      var n := |outs| - 1;
      var s := Charges(s0, userId, action, format, outs[..n], clock);
      match Record(s, userId, action, format, outs[n].fileName, outs[n].publicUrl, clock(n))
      case Success(v) => v.0
      case Failure(_) => s
  }

  /** Charging `n` processed images of a user who holds at least `n` credits takes `n`
      credits from that user and uses `n` fresh ids. */
  lemma {:induction false} ChargesBalance(s0: State, userId: Id, action: Option<string>, format: Option<string>,
                                          outs: seq<ProcessOutput>, clock: nat -> nat)
    requires HasUser(s0, userId) && Balance(s0, userId) >= |outs|
    ensures
      var s := Charges(s0, userId, action, format, outs, clock);
      && HasUser(s, userId) && Balance(s, userId) == Balance(s0, userId) - |outs|
      && s.nextId == s0.nextId + |outs|
  {
    if outs != [] {
      ChargesBalance(s0, userId, action, format, outs[..|outs| - 1], clock);
    }
  }

  /** Charging leaves every other user's row, the ledger and every table but the users and
      the history as they were. */
  lemma {:induction false} ChargesFrame(s0: State, userId: Id, action: Option<string>, format: Option<string>,
                                        outs: seq<ProcessOutput>, clock: nat -> nat)
    ensures
      var s := Charges(s0, userId, action, format, outs, clock);
      && |s.users| == |s0.users|
      && (forall j :: 0 <= j < |s0.users| && s0.users[j].id != userId ==> s.users[j] == s0.users[j])
      && s.txs == s0.txs && s.subs == s0.subs && s.payments == s0.payments && s.plans == s0.plans
      && s.sessions == s0.sessions && s.announcements == s0.announcements && s.config == s0.config
  {
    if outs != [] {
      ChargesFrame(s0, userId, action, format, outs[..|outs| - 1], clock);
    }
  }

  /** The last image's charge appends its row to the history. */
  lemma ChargesLastRow(s0: State, userId: Id, action: Option<string>, format: Option<string>,
                       outs: seq<ProcessOutput>, clock: nat -> nat)
    requires outs != []
    requires
      var s := Charges(s0, userId, action, format, outs[..|outs| - 1], clock);
      HasUser(s, userId) && Balance(s, userId) >= COST_PER_ACTION
    ensures
      var n := |outs| - 1;
      Charges(s0, userId, action, format, outs, clock).history
        == Charges(s0, userId, action, format, outs[..n], clock).history
           + [HistoryRow(Charges(s0, userId, action, format, outs[..n], clock).nextId, userId, action, format,
                         outs[n].fileName, outs[n].publicUrl, COST_PER_ACTION, Some(clock(n) + HISTORY_EXPIRY_MS),
                         false, clock(n))]
  {
  }

  /** Charging `n` processed images of a user who holds at least `n` credits keeps the
      history as it was and appends one row per image. */
  lemma {:induction false} ChargesHistory(s0: State, userId: Id, action: Option<string>, format: Option<string>,
                                          outs: seq<ProcessOutput>, clock: nat -> nat)
    requires HasUser(s0, userId) && Balance(s0, userId) >= |outs|
    ensures
      var h := Charges(s0, userId, action, format, outs, clock).history;
      |h| == |s0.history| + |outs| && h[..|s0.history|] == s0.history
  {
    if outs != [] {
      var n := |outs| - 1;
      ChargesHistory(s0, userId, action, format, outs[..n], clock);
      ChargesBalance(s0, userId, action, format, outs[..n], clock);
      ChargesLastRow(s0, userId, action, format, outs, clock);
      var h := Charges(s0, userId, action, format, outs[..n], clock).history;
      assert (h + [Charges(s0, userId, action, format, outs, clock).history[|h|]])[..|s0.history|] == h[..|s0.history|];
    }
  }

  /** `error.message || 'Processing failed'`: the thrown message, unless it is empty. */
  function FailureMessage(message: string): (r: string)
    ensures r != ""
    ensures message != "" ==> r == message
  {
    if message != "" then message else "Processing failed"
  }

  /** After the images the calls in `effects` were for: one result per image, each with its
      image's size and built from the record its call returned. */
  ghost predicate Done(form: ProcessForm, results: seq<FileResult>, effects: seq<Effect>) {
    && |effects| <= |form.images|
    && |results| == |effects|
    && Succeeded(effects)
    && (forall j :: 0 <= j < |results| ==> results[j].originalSize == form.images[j].Size())
    && (forall j :: 0 <= j < |results| ==> results[j] == Entry(form, form.images[j], effects[j].result.value))
  }

  lemma DoneStep(form: ProcessForm, results: seq<FileResult>, effects: seq<Effect>, e: Effect, result: FileResult)
    requires Done(form, results, effects) && |effects| < |form.images|
    requires e.result.Success?
    requires result.originalSize == form.images[|effects|].Size()
    requires result == Entry(form, form.images[|effects|], e.result.value)
    ensures Done(form, results + [result], effects + [e])
  {
    var results', effects' := results + [result], effects + [e];
    forall j | 0 <= j < |effects'|
      ensures effects'[j].result.Success?
      ensures results'[j].originalSize == form.images[j].Size()
      ensures results'[j] == Entry(form, form.images[j], effects'[j].result.value)
    {
      if j < |effects| {
        assert results'[j] == results[j] && effects'[j] == effects[j];
      }
    }
  }
  /** After `i` charged images: the user still exists, has paid one credit per image, and
      the history has one more row per image while the ledger is untouched. */
  ghost predicate ChargedFor(s0: State, s: State, userId: Id, credits: int, i: nat) {
    && HasUser(s, userId)
    && Balance(s, userId) == credits - i
    && |s.history| == |s0.history| + i
    && s.txs == s0.txs
  }

  /** After the calls in `effects`: the database holds their charges and the object store
      their uploads. */
  ghost predicate Ran(s0: State, objects0: map<string, StoredObject>, s: State, objects: map<string, StoredObject>,
                      userId: Id, action: Option<string>, format: Option<string>, clock: nat -> nat,
                      effects: seq<Effect>)
    requires Succeeded(effects)
  {
    && s == Charges(s0, userId, action, format, Outputs(effects), clock)
    && objects == StoredAll(objects0, effects)
  }

  /** One more processed and charged image extends `Ran`. */
  lemma RanStep(s0: State, objects0: map<string, StoredObject>, s: State, objects: map<string, StoredObject>,
                s': State, objects': map<string, StoredObject>, userId: Id, action: Option<string>,
                format: Option<string>, clock: nat -> nat, effects: seq<Effect>, e: Effect)
    requires Succeeded(effects) && e.result.Success?
    requires Ran(s0, objects0, s, objects, userId, action, format, clock, effects)
    requires objects' == WithStored(objects, e.stored)
    requires
      var c := Record(s, userId, action, format, e.result.value.fileName, e.result.value.publicUrl, clock(|effects|));
      c.Success? && s' == c.value.0
    ensures Succeeded(effects + [e])
    ensures Ran(s0, objects0, s', objects', userId, action, format, clock, effects + [e])
  {
    assert (effects + [e])[..|effects|] == effects;
    assert Outputs(effects + [e])[..|effects|] == Outputs(effects);
  }
  /** The dashboard's actions, over the user service's database and the image service's
      object store. */
  class DashboardActions {
    const users: UserService
    const images: ImageService

    constructor (users: UserService, images: ImageService)
      ensures this.users == users && this.images == images
    {
      this.users := users;
      this.images := images;
    }

    /** `process`. A refused request changes nothing. Otherwise each image is encoded,
        stored and charged one credit in turn; the answer reports the starting credits
        less the number of images, which is then the stored balance. An image that
        `ImageService.process` throws for answers 500 with the thrown message (or
        "Processing failed" when it is empty) and keeps what was done before it. */
    method Process(locals: Option<LocalUser>, form: ProcessForm, cat: Catalogue, codec: Codec, clock: nat -> nat)
      returns (resp: ProcessResponse)
      modifies users.db, images.store
      ensures Gate(old(users.db.Snapshot()), locals, form, cat).Failure? ==>
        && resp == Rejected(Gate(old(users.db.Snapshot()), locals, form, cat).error)
        && users.db.Snapshot() == old(users.db.Snapshot())
        && images.store.objects == old(images.store.objects)
      ensures Gate(old(users.db.Snapshot()), locals, form, cat).Success? ==>
        var s0 := old(users.db.Snapshot());
        var q := Gate(s0, locals, form, cat).value;
        var uid := locals.value.id;
        && (Succeeded(EffectsUpTo(form, |form.images|, q, uid, cat, codec, clock)) ==> resp.Processed?)
        && (resp.Rejected? ==>
             exists i :: 0 <= i < |form.images| && !Processes(form, i, q, uid, cat, codec, clock)
                         && Succeeded(EffectsUpTo(form, i, q, uid, cat, codec, clock))
                         && resp.failure == Fail(500, FailureMessage(ThrownBy(form, i, q, uid, cat, codec, clock)))
                         && users.db.Snapshot() ==
                              Charges(s0, uid, form.action, form.format,
                                      Outputs(EffectsUpTo(form, i, q, uid, cat, codec, clock)), clock)
                         && images.store.objects ==
                              WithStored(StoredAll(old(images.store.objects), EffectsUpTo(form, i, q, uid, cat, codec, clock)),
                                         FileEffect(form, i, q, uid, cat, codec, clock).stored))
        && (resp.Processed? ==>
             var effects := EffectsUpTo(form, |form.images|, q, uid, cat, codec, clock);
             && Succeeded(effects)
             && |resp.results| == |form.images|
             && users.db.Snapshot() == Charges(s0, uid, form.action, form.format, Outputs(effects), clock)
             && images.store.objects == StoredAll(old(images.store.objects), effects)
             && (forall i :: 0 <= i < |form.images| ==>
                   resp.results[i] == Entry(form, form.images[i], effects[i].result.value))
             && resp.newCredits == Balance(s0, uid) - |form.images|
             && Balance(users.db.Snapshot(), uid) == resp.newCredits
             && (forall i :: 0 <= i < |form.images| ==> resp.results[i].originalSize == form.images[i].Size())
             && |users.db.history| == |s0.history| + |form.images|
             && users.db.transactions == s0.txs)
    {
      ghost var s0 := users.db.Snapshot();
      if locals.None? {
        return Rejected(Fail(401, "Unauthorized"));
      }
      var user := locals.value;
      var qualityValue := InitialQuality(form.quality, cat.parseInt);
      var userTier := TierOf(user);
      var maxQuality := cat.maxQuality(userTier);
      var selected := SelectedAction(cat.actions, form.action);
      if selected.Some? && !cat.isFeatureAllowed(userTier, cat.actions[selected.value].minTier) {
        return Rejected(Fail(403, "Feature \"" + cat.actions[selected.value].caption + "\" required Pro plan."));
      }
      if qualityValue > maxQuality {
        qualityValue := maxQuality;
      }
      if |form.images| == 0 || form.images[0].Size() == 0 {
        return Rejected(Fail(400, "No images selected"));
      }
      var currentCredits := UserCredits(users.db.Snapshot(), user.id);
      if currentCredits < |form.images| {
        return Rejected(Fail(400, "Insufficient credits."));
      }
      assert Gate(s0, locals, form, cat) == Success(qualityValue);
      resp := ProcessAll(user, form, qualityValue, currentCredits, cat, codec, clock);
    }

    /** The images of an admitted request, one after another. */
    method ProcessAll(user: LocalUser, form: ProcessForm, quality: int, currentCredits: int, cat: Catalogue,
                      codec: Codec, clock: nat -> nat) returns (resp: ProcessResponse)
      requires HasUser(users.db.Snapshot(), user.id)
      requires Balance(users.db.Snapshot(), user.id) == currentCredits
      requires currentCredits >= |form.images|
      modifies users.db, images.store
      ensures Succeeded(EffectsUpTo(form, |form.images|, quality, user.id, cat, codec, clock)) ==> resp.Processed?
      ensures resp.Rejected? ==>
        exists i :: 0 <= i < |form.images| && !Processes(form, i, quality, user.id, cat, codec, clock)
                    && Succeeded(EffectsUpTo(form, i, quality, user.id, cat, codec, clock))
                    && resp.failure == Fail(500, FailureMessage(ThrownBy(form, i, quality, user.id, cat, codec, clock)))
                    && users.db.Snapshot() ==
                         Charges(old(users.db.Snapshot()), user.id, form.action, form.format,
                                 Outputs(EffectsUpTo(form, i, quality, user.id, cat, codec, clock)), clock)
                    && images.store.objects ==
                         WithStored(StoredAll(old(images.store.objects), EffectsUpTo(form, i, quality, user.id, cat, codec, clock)),
                                    FileEffect(form, i, quality, user.id, cat, codec, clock).stored)
      ensures resp.Processed? ==>
        var effects := EffectsUpTo(form, |form.images|, quality, user.id, cat, codec, clock);
        && Succeeded(effects)
        && |resp.results| == |form.images|
        && users.db.Snapshot() ==
             Charges(old(users.db.Snapshot()), user.id, form.action, form.format, Outputs(effects), clock)
        && images.store.objects == StoredAll(old(images.store.objects), effects)
        && (forall i :: 0 <= i < |form.images| ==>
              resp.results[i] == Entry(form, form.images[i], effects[i].result.value))
        && resp.newCredits == currentCredits - |form.images|
        && Balance(users.db.Snapshot(), user.id) == resp.newCredits
        && (forall i :: 0 <= i < |form.images| ==> resp.results[i].originalSize == form.images[i].Size())
        && |users.db.history| == old(|users.db.history|) + |form.images|
        && users.db.transactions == old(users.db.transactions)
    {
      ghost var s0 := users.db.Snapshot();
      ghost var objects0 := images.store.objects;
      ghost var effects: seq<Effect> := [];
      var results: seq<FileResult> := [];
      var i := 0;
      while i < |form.images|
        invariant 0 <= i <= |form.images|
        invariant effects == EffectsUpTo(form, i, quality, user.id, cat, codec, clock)
        invariant Done(form, results, effects)
        invariant ChargedFor(s0, users.db.Snapshot(), user.id, currentCredits, i)
        invariant Ran(s0, objects0, users.db.Snapshot(), images.store.objects, user.id, form.action, form.format, clock,
                      effects)
      {
        ghost var s, objects := users.db.Snapshot(), images.store.objects;
        var result := ProcessFile(user, form, i, quality, cat, codec, clock);
        if result.Failure? {
          EffectsUpToAt(form, |form.images|, quality, user.id, cat, codec, clock, i);
          return Rejected(Fail(500, FailureMessage(result.error)));
        }
        ghost var e := FileEffect(form, i, quality, user.id, cat, codec, clock);
        RanStep(s0, objects0, s, objects, users.db.Snapshot(), images.store.objects, user.id, form.action, form.format,
                clock, effects, e);
        DoneStep(form, results, effects, e, result.value);
        results := results + [result.value];
        effects := effects + [e];
        i := i + 1;
      }
      resp := Processed(currentCredits - |form.images|, results);
    }
    /** One file of `process`: encode, store and sign it, then charge it. A file that
        `ImageService.process` throws for is not charged, and the message is passed on. */
    method ProcessFile(user: LocalUser, form: ProcessForm, i: nat, quality: int, cat: Catalogue, codec: Codec,
                       clock: nat -> nat) returns (result: Result<FileResult, string>)
      requires i < |form.images|
      requires HasUser(users.db.Snapshot(), user.id) && Balance(users.db.Snapshot(), user.id) >= COST_PER_ACTION
      modifies users.db, images.store
      ensures images.store.objects ==
        WithStored(old(images.store.objects), FileEffect(form, i, quality, user.id, cat, codec, clock).stored)
      ensures result.Failure? <==> !Processes(form, i, quality, user.id, cat, codec, clock)
      ensures result.Failure? ==>
        && result.error == ThrownBy(form, i, quality, user.id, cat, codec, clock)
        && users.db.Snapshot() == old(users.db.Snapshot())
      ensures result.Success? ==>
        var out := FileEffect(form, i, quality, user.id, cat, codec, clock).result.value;
        && result.value == Entry(form, form.images[i], out)
        && result.value.originalSize == form.images[i].Size()
        && Record(old(users.db.Snapshot()), user.id, form.action, form.format, out.fileName, out.publicUrl,
                  clock(i)).Success?
        && users.db.Snapshot() == Record(old(users.db.Snapshot()), user.id, form.action, form.format, out.fileName,
                                         out.publicUrl, clock(i)).value.0
        && HasUser(users.db.Snapshot(), user.id)
        && Balance(users.db.Snapshot(), user.id) == old(Balance(users.db.Snapshot(), user.id)) - COST_PER_ACTION
        && |users.db.history| == old(|users.db.history|) + 1
        && users.db.transactions == old(users.db.transactions)
    {
      var file := form.images[i];
      var input := FileOptions(form, file, quality, user.id, cat);
      var out := images.Process(input, codec, clock(i));
      if out.Failure? {
        return Failure(out.error);
      }
      var altText := if form.generateAltText == Some("true")
                     then Some(AltText(file.name, form.format.GetOr(""), file.Size())) else None;
      var charged := users.RecordActivity(user.id, form.action, form.format, out.value.fileName,
                                          out.value.publicUrl, clock(i));
      // The caller's pre-check left at least one credit for this image.
      assert charged.Success?;
      result := Success(FileResult(out.value.publicUrl, out.value.downloadUrl, out.value.originalSize,
                                   out.value.newSize, out.value.format, altText));
    }

    /** `delete`: 401 without a user, 400 without a history id, otherwise the user's row
        with that id is deleted. */
    method Delete(locals: Option<LocalUser>, historyId: Option<string>) returns (r: Result<(), Fail>)
      modifies users.db
      ensures locals.None? ==> r == Failure(Fail(401, "Unauthorized"))
      ensures locals.Some? && !Truthy(historyId) ==> r == Failure(Fail(400, "Invalid history ID"))
      ensures r.Failure? ==> users.db.Snapshot() == old(users.db.Snapshot())
      ensures r.Success? <==> locals.Some? && Truthy(historyId)
      ensures r.Success? ==>
        users.db.Snapshot() == Users.Delete(old(users.db.Snapshot()), historyId.value, locals.value.id).0
    {
      if locals.None? {
        return Failure(Fail(401, "Unauthorized"));
      }
      if !Truthy(historyId) {
        return Failure(Fail(400, "Invalid history ID"));
      }
      var _ := users.DeleteHistory(historyId.value, locals.value.id);
      r := Success(());
    }

    /** `togglePermanent`: the same guards, then the user's row is kept or given back its
        seven-day expiry as `isPermanent` says. */
    method TogglePermanent(locals: Option<LocalUser>, historyId: Option<string>, isPermanent: Option<string>, now: int)
      returns (r: Result<(), Fail>)
      modifies users.db
      ensures locals.None? ==> r == Failure(Fail(401, "Unauthorized"))
      ensures locals.Some? && !Truthy(historyId) ==> r == Failure(Fail(400, "Invalid history ID"))
      ensures r.Failure? ==> users.db.Snapshot() == old(users.db.Snapshot())
      ensures r.Success? <==> locals.Some? && Truthy(historyId)
      ensures r.Success? ==>
        users.db.Snapshot() == MarkPermanent(old(users.db.Snapshot()), historyId.value, locals.value.id,
                                             isPermanent == Some("true"), now)
    {
      if locals.None? {
        return Failure(Fail(401, "Unauthorized"));
      }
      if !Truthy(historyId) {
        return Failure(Fail(400, "Invalid history ID"));
      }
      users.MarkHistoryPermanent(historyId.value, locals.value.id, isPermanent == Some("true"), now);
      r := Success(());
    }
  }
}
