/**
 * The home page's project logic (`Home` in app/routes/home.tsx).
 *
 * Opening a project writes a handoff record under `"visualizer:" + id` in
 * the browser's session storage and then navigates to `/visualizer/` + id.
 * When an upload completes, a new project item is built and handed to the
 * persistence call `createProject`; if that yields nothing the handler gives
 * up, otherwise the saved project is prepended to the page's list and opened
 * the same way. Session storage is a map, navigation a log of paths, and the
 * persistence call's answer a parameter.
 */
module Home {
  import opened Wrappers

  /** The persisted project: `name` and `renderedImage` may be absent. */
  datatype DesignItem = DesignItem(
    id: string,
    name: Option<string>,
    sourceImage: string,
    renderedImage: Option<string>,
    timestamp: int)

  /**
   * The record the visualizer reads back from session storage. `None` in
   * `initialRenderedImage` is JSON `null`; `None` in `name` is a name that
   * serialisation leaves out because it was undefined.
   */
  datatype HandoffRecord = HandoffRecord(
    initialImage: string,
    initialRenderedImage: Option<string>,
    name: Option<string>)

  /** The argument of a `createProject` call. */
  datatype CreateRequest = CreateRequest(item: DesignItem, visibility: string)

  const KeyPrefix := "visualizer:"
  const PathPrefix := "/visualizer/"
  const NamePrefix := "Residence "

  // ---------------------------------------------------------------------------
  // Keys and paths
  // ---------------------------------------------------------------------------

  /** The session-storage key of the handoff record for project `id`. */
  function StorageKey(id: string): (key: string)
    ensures |key| == |KeyPrefix| + |id|
    ensures key[..|KeyPrefix|] == KeyPrefix
  {
    KeyPrefix + id
  }

  /** The project id a handoff key stands for. */
  function KeyId(key: string): (id: string)
    requires |key| >= |KeyPrefix|
  {
    key[|KeyPrefix|..]
  }

  /** Reading the id back out of a key gives the id the key was made from. */
  lemma KeyRoundTrip(id: string)
    ensures KeyId(StorageKey(id)) == id
  {
  }

  /** Different projects never share a handoff key. */
  lemma StorageKeyInjective(a: string, b: string)
    ensures StorageKey(a) == StorageKey(b) <==> a == b
  {
  }

  /** The route of the visualizer for project `id`. */
  function VisualizerPath(id: string): (path: string)
    ensures IsVisualizerPath(path)
  {
    PathPrefix + id
  }

  predicate IsVisualizerPath(path: string) {
    |path| >= |PathPrefix| && path[..|PathPrefix|] == PathPrefix
  }

  /** The project id a visualizer route names. */
  function PathId(path: string): (id: string)
    requires IsVisualizerPath(path)
  {
    path[|PathPrefix|..]
  }

  /** Parsing a visualizer route inverts building it, in both directions. */
  lemma PathRoundTrip(id: string, path: string)
    ensures PathId(VisualizerPath(id)) == id
    ensures IsVisualizerPath(path) ==> VisualizerPath(PathId(path)) == path
  {
  }

  // ---------------------------------------------------------------------------
  // Handoff records and project items
  // ---------------------------------------------------------------------------

  /** JavaScript truthiness of an optional string: present and not empty. */
  predicate Truthy(s: Option<string>) {
    s.Some? && s.value != ""
  }

  /**
   * `s || null`: normalises an optional image to `null` or a truthy string.
   * Truthiness is kept, a truthy value passes through unchanged, and only
   * falsy values (the empty string included) become `null`.
   */
  function OrNull(s: Option<string>): (r: Option<string>)
    ensures r.Some? ==> Truthy(r)
    ensures Truthy(r) <==> Truthy(s)
    ensures Truthy(s) ==> r == s
  {
    if Truthy(s) then s else None
  }

  /** Normalising twice is normalising once, and the values it keeps are exactly the normal ones. */
  lemma OrNullIdempotent(s: Option<string>)
    ensures OrNull(OrNull(s)) == OrNull(s)
    ensures OrNull(s) == s <==> s.None? || Truthy(s)
  {
  }

  /**
   * The record `handleOpenProject` writes for a project: the source image and
   * name, and a render slot that is `null` or a truthy image, present exactly
   * when the given render is truthy.
   */
  function OpenRecord(name: string, sourceImage: string, renderedImage: Option<string>): (r: HandoffRecord)
    ensures r.initialImage == sourceImage && r.name == Some(name)
    ensures r.initialRenderedImage.Some? ==> Truthy(r.initialRenderedImage)
    ensures r.initialRenderedImage.Some? <==> Truthy(renderedImage)
    ensures r.initialRenderedImage.Some? ==> r.initialRenderedImage == renderedImage
  {
    HandoffRecord(sourceImage, OrNull(renderedImage), Some(name))
  }

  /**
   * The record `handleUploadComplete` writes, from the saved project's own
   * fields. When the saved project has a name it is exactly the record that
   * opening that project writes; without one the record carries no name.
   */
  function SavedRecord(saved: DesignItem): (r: HandoffRecord)
    ensures saved.name.Some? ==> r == OpenRecord(saved.name.value, saved.sourceImage, saved.renderedImage)
    ensures saved.name.None? ==> r.name.None?
    ensures r.initialImage == saved.sourceImage && r.name == saved.name
    ensures r.initialRenderedImage.Some? ==> Truthy(r.initialRenderedImage)
    ensures r.initialRenderedImage.Some? <==> Truthy(saved.renderedImage)
    ensures r.initialRenderedImage.Some? ==> r.initialRenderedImage == saved.renderedImage
  {
    HandoffRecord(saved.sourceImage, OrNull(saved.renderedImage), saved.name)
  }

  /**
   * The item `handleUploadComplete` asks to persist. It has no render yet, so
   * its card previews the uploaded image and opening it hands the visualizer
   * no render (the visualizer has to generate one).
   */
  function NewItem(newId: string, base64: string, timestamp: int): (item: DesignItem)
    ensures item.id == newId && item.name == Some(NamePrefix + newId)
    ensures item.sourceImage == base64 && item.renderedImage == None
    ensures item.timestamp == timestamp
    ensures PreviewImage(item) == base64
    ensures OpenRecord(item.name.value, item.sourceImage, item.renderedImage).initialRenderedImage.None?
  {
    DesignItem(newId, Some(NamePrefix + newId), base64, None, timestamp)
  }

  /**
   * `{...item, ...saved}`. The saved project's required fields always win;
   * a saved project that carries every optional field comes out unchanged;
   * an optional field is missing only when both lack it, and otherwise the
   * saved value overrides the item's.
   */
  function Merge(item: DesignItem, saved: DesignItem): (m: DesignItem)
    ensures m.id == saved.id && m.sourceImage == saved.sourceImage
    ensures m.timestamp == saved.timestamp
    ensures saved.name.Some? && saved.renderedImage.Some? ==> m == saved
    ensures m.name.None? <==> saved.name.None? && item.name.None?
    ensures m.renderedImage.None? <==> saved.renderedImage.None? && item.renderedImage.None?
    ensures m.name == (if saved.name.Some? then saved.name else item.name)
    ensures m.renderedImage == (if saved.renderedImage.Some? then saved.renderedImage else item.renderedImage)
  {
    DesignItem(
      saved.id,
      if saved.name.Some? then saved.name else item.name,
      saved.sourceImage,
      if saved.renderedImage.Some? then saved.renderedImage else item.renderedImage,
      saved.timestamp)
  }

  /** Merging the same saved project again changes nothing; merging onto the saved project itself gives it back. */
  lemma MergeIdempotent(item: DesignItem, saved: DesignItem)
    ensures Merge(Merge(item, saved), saved) == Merge(item, saved)
    ensures Merge(item, Merge(item, saved)) == Merge(item, saved)
    ensures Merge(saved, saved) == saved
  {
  }

  /**
   * The card prepended after an upload always has a name (the saved one, or
   * "Residence " + the new id), and shows the saved project's render, if any.
   */
  lemma UploadedCardNamed(newId: string, base64: string, timestamp: int, saved: DesignItem)
    ensures Merge(NewItem(newId, base64, timestamp), saved).name.Some?
    ensures Merge(NewItem(newId, base64, timestamp), saved).name.value
            == saved.name.GetOr(NamePrefix + newId)
    ensures Merge(NewItem(newId, base64, timestamp), saved).renderedImage == saved.renderedImage
  {
  }

  /**
   * The image a project card previews: one of the card's own images, the
   * truthy render over the source, and never blank when the source is not.
   */
  function PreviewImage(item: DesignItem): (src: string)
    ensures src == item.sourceImage || Some(src) == item.renderedImage
    ensures item.sourceImage != "" ==> src != ""
    ensures Truthy(item.renderedImage) ==> src == item.renderedImage.value
    ensures !Truthy(item.renderedImage) ==> src == item.sourceImage
  {
    if Truthy(item.renderedImage) then item.renderedImage.value else item.sourceImage
  }

  /**
   * The image the visualizer shows for a handoff record: `None` when the
   * source image is falsy (the visualizer shows its "not found" screen),
   * otherwise a truthy rendered image, or the source image as a fallback.
   */
  function FirstShown(r: HandoffRecord): (shown: Option<string>) {
    if r.initialImage == "" then None
    else if Truthy(r.initialRenderedImage) then Some(r.initialRenderedImage.value)
    else Some(r.initialImage)
  }

  /**
   * Opening a card hands over exactly the image its preview shows, unless the
   * card has no source image, in which case the visualizer reports "not found".
   */
  lemma PreviewMatchesHandoff(item: DesignItem)
    ensures FirstShown(OpenRecord(item.name.GetOr(""), item.sourceImage, item.renderedImage))
            == (if item.sourceImage != "" then Some(PreviewImage(item)) else None)
  {
  }

  /**
   * After an upload the visualizer first shows exactly the image the new card
   * previews, unless the saved project has no source image ("not found").
   */
  lemma UploadPreviewMatchesHandoff(newId: string, base64: string, timestamp: int, saved: DesignItem)
    ensures FirstShown(SavedRecord(saved))
            == (if saved.sourceImage != "" then Some(PreviewImage(Merge(NewItem(newId, base64, timestamp), saved))) else None)
  {
  }

  /**
   * The project prepended on a successful upload, when its card is opened
   * later, writes the record the upload wrote under the same key exactly when
   * the saved project kept the new id and carries a name.
   */
  lemma ReopenAgreesWithUpload(newId: string, base64: string, timestamp: int, saved: DesignItem)
    ensures var card := Merge(NewItem(newId, base64, timestamp), saved);
      StorageKey(card.id) == StorageKey(newId) <==> saved.id == newId
    ensures var card := Merge(NewItem(newId, base64, timestamp), saved);
      OpenRecord(card.name.GetOr(""), card.sourceImage, card.renderedImage) == SavedRecord(saved)
      <==> saved.name.Some?
  {
  }

  /** Session storage after writing `record` for `id`: that key replaced, every other key kept. */
  function Write(storage: map<string, HandoffRecord>, id: string, record: HandoffRecord)
    : (r: map<string, HandoffRecord>)
    ensures StorageKey(id) in r && r[StorageKey(id)] == record
    ensures r.Keys == storage.Keys + {StorageKey(id)}
    ensures forall key :: key in storage && key != StorageKey(id) ==> r[key] == storage[key]
  {
    storage[StorageKey(id) := record]
  }

  /** Writing twice for the same id keeps only the last record. */
  lemma LastWriteWins(storage: map<string, HandoffRecord>, id: string, a: HandoffRecord, b: HandoffRecord)
    ensures Write(Write(storage, id, a), id, b) == Write(storage, id, b)
  {
  }

  /** A card key press opens the project only for Enter and Space. */
  predicate OpensOnKey(key: string) {
    key == "Enter" || key == " "
  }

  // ---------------------------------------------------------------------------
  // The page
  // ---------------------------------------------------------------------------

  class HomePage {
    /** The page's project list, newest first. */
    var projects: seq<DesignItem>
    /** The browser's session storage. */
    var storage: map<string, HandoffRecord>
    /** The paths navigated to, in order. */
    var navigations: seq<string>
    /** The `createProject` calls made, in order. */
    var requests: seq<CreateRequest>

    /** Every navigation went to a visualizer route whose handoff record is in storage. */
    ghost predicate Valid()
      reads this
    {
      forall i :: 0 <= i < |navigations| ==>
        IsVisualizerPath(navigations[i]) && StorageKey(PathId(navigations[i])) in storage
    }

    constructor (session: map<string, HandoffRecord>)
      ensures Valid()
      ensures projects == [] && storage == session && navigations == [] && requests == []
    {
      projects := [];
      storage := session;
      navigations := [];
      requests := [];
    }

    /** `handleOpenProject`: write the handoff record for `id`, then go to its visualizer. */
    method OpenProject(id: string, name: string, sourceImage: string, renderedImage: Option<string>)
      requires Valid()
      modifies this
      ensures Valid()
      ensures storage == Write(old(storage), id, OpenRecord(name, sourceImage, renderedImage))
      ensures navigations == old(navigations) + [VisualizerPath(id)]
      ensures projects == old(projects) && requests == old(requests)
    {
      storage := Write(storage, id, OpenRecord(name, sourceImage, renderedImage));
      PathRoundTrip(id, "");
      navigations := navigations + [VisualizerPath(id)];
    }

    /**
     * `handleUploadComplete`: `saved` is what `createProject` yielded. On
     * `None` the handler returns `false` (`Some(false)`) having changed nothing
     * but the request log; otherwise it returns undefined (`None`) after
     * prepending the merged project, writing the saved project's record under
     * the new id and navigating to the new id's visualizer.
     */
    method UploadComplete(base64: string, newId: string, timestamp: int, saved: Option<DesignItem>)
      returns (returned: Option<bool>)
      requires Valid()
      modifies this
      ensures Valid()
      ensures requests == old(requests) + [CreateRequest(NewItem(newId, base64, timestamp), "private")]
      ensures saved.None? ==>
        && returned == Some(false)
        && projects == old(projects) && storage == old(storage) && navigations == old(navigations)
      ensures saved.Some? ==>
        && returned == None
        && projects == [Merge(NewItem(newId, base64, timestamp), saved.value)] + old(projects)
        && storage == Write(old(storage), newId, SavedRecord(saved.value))
        && navigations == old(navigations) + [VisualizerPath(newId)]
    {
      var item := NewItem(newId, base64, timestamp);
      requests := requests + [CreateRequest(item, "private")];
      if saved.None? {
        return Some(false);
      }
      projects := [Merge(item, saved.value)] + projects;
      storage := Write(storage, newId, SavedRecord(saved.value));
      PathRoundTrip(newId, "");
      navigations := navigations + [VisualizerPath(newId)];
      returned := None;
    }

    /** A click on card `k` opens its project. */
    method CardClick(k: nat)
      requires Valid() && k < |projects|
      modifies this
      ensures Valid()
      ensures var p := old(projects)[k];
        storage == Write(old(storage), p.id, OpenRecord(p.name.GetOr(""), p.sourceImage, p.renderedImage))
        && navigations == old(navigations) + [VisualizerPath(p.id)]
      ensures projects == old(projects) && requests == old(requests)
    {
      var p := projects[k];
      OpenProject(p.id, p.name.GetOr(""), p.sourceImage, p.renderedImage);
    }

    /** A key press on card `k` opens its project for Enter or Space and does nothing otherwise. */
    method CardKeyDown(k: nat, key: string)
      requires Valid() && k < |projects|
      modifies this
      ensures Valid()
      ensures !OpensOnKey(key) ==> unchanged(this)
      ensures OpensOnKey(key) ==> var p := old(projects)[k];
        storage == Write(old(storage), p.id, OpenRecord(p.name.GetOr(""), p.sourceImage, p.renderedImage))
        && navigations == old(navigations) + [VisualizerPath(p.id)]
      ensures projects == old(projects) && requests == old(requests)
    {
      if OpensOnKey(key) {
        var p := projects[k];
        OpenProject(p.id, p.name.GetOr(""), p.sourceImage, p.renderedImage);
      }
    }
  }
}
