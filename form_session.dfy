/**
 * The form session: the state the form component keeps (current section,
 * the answer map, the signed-in user, the auth-ready flag, the record id,
 * the saving flag, the summary text and the generating flag), and the
 * handlers and effects that change it, one atomic step each.
 *
 * Everything the component asks of the outside world (sign-in, creating
 * the record, the merge write of a save, the summary request) is recorded
 * in a ghost request log; what comes back (the auth callback, the new
 * record's id, a snapshot, the end of a save, the summary response) is a
 * method called by the environment.
 */
module FormSession {
  import opened Wrappers
  import opened FormField
  import Schema
  import Decimal

  /** The answer map, keyed by field id. A missing key is an unanswered field. */
  type Answers = map<string, Value>

  /** JavaScript truthiness of an optional string: present and not empty. */
  predicate Truthy(s: Option<string>) {
    s.Some? && s.value != ""
  }

  // ---------------------------------------------------------------------
  // The answer map
  // ---------------------------------------------------------------------

  /** `{...prev, [id]: value}`: the field gets the new answer, every other key keeps its own. */
  function WithAnswer(data: Answers, id: string, value: Value): (r: Answers)
    ensures id in r && r[id] == value
    ensures forall k :: k != id ==> (k in r <==> k in data)
    ensures forall k :: k != id && k in data ==> r[k] == data[k]
  {
    data[id := value]
  }

  /** `formData[id]`, with `undefined` for an unanswered field. */
  function Lookup(data: Answers, id: string): (r: Option<Value>)
    ensures r.Some? <==> id in data
    ensures r.Some? ==> r.value == data[id]
  {
    if id in data then Some(data[id]) else None
  }

  /** A second edit of the same field overrides the first. */
  lemma LastEditWins(data: Answers, id: string, first: Value, second: Value)
    ensures WithAnswer(WithAnswer(data, id, first), id, second) == WithAnswer(data, id, second)
  {
  }

  /** Edits of two different fields do not interfere: either order gives the same map. */
  lemma EditsOfDistinctFieldsCommute(data: Answers, id1: string, v1: Value, id2: string, v2: Value)
    requires id1 != id2
    ensures WithAnswer(WithAnswer(data, id1, v1), id2, v2) == WithAnswer(WithAnswer(data, id2, v2), id1, v1)
  {
  }

  // ---------------------------------------------------------------------
  // Snapshots of the remote record
  // ---------------------------------------------------------------------

  /** A snapshot of the record: it does not exist, or it exists and may or may not hold a `formData` map. */
  datatype Snapshot = Missing | Present(formData: Option<Answers>)

  /** The answer map after a snapshot: the record's `formData` (or `{}`), or the local map when there is no record. */
  function AfterSnapshot(local: Answers, snap: Snapshot): (r: Answers)
    ensures snap.Missing? ==> r == local
    ensures snap.Present? && snap.formData.Some? ==> r == snap.formData.value
    ensures snap == Present(None) ==> r == map[]
  {
    match snap
    case Missing => local
    case Present(remote) => remote.GetOr(map[])
  }

  /**
   * A snapshot of an existing record replaces the map wholesale: an edit made
   * before it and not saved is lost, whatever field it touched.
   */
  lemma SnapshotDiscardsUnsavedEdit(local: Answers, id: string, value: Value, remote: Option<Answers>)
    ensures AfterSnapshot(WithAnswer(local, id, value), Present(remote)) == AfterSnapshot(local, Present(remote))
    ensures remote.Some? && id !in remote.value ==> id !in AfterSnapshot(WithAnswer(local, id, value), Present(remote))
  {
  }

  // ---------------------------------------------------------------------
  // Requests to the outside world
  // ---------------------------------------------------------------------

  const InProgress: string := "in-progress"
  const Saved: string := "saved"

  /**
   * A request the session issues. The record path is the owner's user id and
   * the record id; the server timestamps are not modelled.
   */
  datatype Request =
    | SignInWithCustomToken(token: string)
    | SignInAnonymously
    | CreateRecord(owner: string, status: string, data: Answers)
    | SaveWrite(owner: string, recordId: string, data: Answers, status: string, merge: bool)
    | GenerateContent(data: Answers)

  /** The sign-in issued when the auth callback reports no user: with the token when there is one, anonymous otherwise. */
  function SignInRequest(token: Option<string>): (r: Request)
    ensures r.SignInWithCustomToken? <==> Truthy(token)
    ensures r.SignInWithCustomToken? ==> r.token == token.value
  {
    if Truthy(token) then SignInWithCustomToken(token.value) else SignInAnonymously
  }

  /** The record-creating effect's guard: auth has settled, there is a user, and no record yet. */
  predicate MayCreateRecord(isAuthReady: bool, userId: Option<string>, formId: Option<string>) {
    isAuthReady && Truthy(userId) && !Truthy(formId)
  }

  /** The write a save issues, or `None` when the record id or the user id is missing. */
  function SaveRequest(userId: Option<string>, formId: Option<string>, data: Answers): (r: Option<Request>)
    ensures r.None? <==> !Truthy(formId) || !Truthy(userId)
    ensures r.Some? ==> r.value.SaveWrite? && r.value.merge && r.value.status == Saved
    ensures r.Some? ==> r.value.owner == userId.value && r.value.recordId == formId.value && r.value.data == data
  {
    if !Truthy(formId) || !Truthy(userId) then None
    else Some(SaveWrite(userId.value, formId.value, data, Saved, true))
  }

  // ---------------------------------------------------------------------
  // Navigation between sections
  // ---------------------------------------------------------------------

  /** `Math.max(0, i - 1)`. */
  function PrevIndex(i: int): (r: int)
    ensures r >= 0
    ensures i > 0 ==> r == i - 1
    ensures i <= 0 ==> r == 0
  {
    if i - 1 > 0 then i - 1 else 0
  }

  /** `Math.min(count - 1, i + 1)`. */
  function NextIndex(i: int, count: int): (r: int)
    ensures r <= count - 1
    ensures i < count - 1 ==> r == i + 1
    ensures i >= count - 1 ==> r == count - 1
  {
    if count - 1 < i + 1 then count - 1 else i + 1
  }

  /** From any section, moving back or forward lands on an existing section; the first and last sections are sticky. */
  lemma NavigationStaysInBounds(i: int, count: int)
    requires 0 <= i < count
    ensures 0 <= PrevIndex(i) < count && 0 <= NextIndex(i, count) < count
    ensures i == 0 ==> PrevIndex(i) == 0
    ensures i == count - 1 ==> NextIndex(i, count) == count - 1
  {
  }

  /** Away from the ends, Previous undoes Next and Next undoes Previous. */
  lemma PrevUndoesNext(i: int, count: int)
    requires 0 <= i < count - 1
    ensures PrevIndex(NextIndex(i, count)) == i
    ensures NextIndex(PrevIndex(i + 1), count) == i + 1
  {
  }

  // ---------------------------------------------------------------------
  // The summary response
  // ---------------------------------------------------------------------

  /**
   * What the summary request came back with: a non-ok HTTP status, an ok
   * response with or without text at `candidates[0].content.parts[0].text`,
   * or a failure before any status (network error, unreadable body).
   */
  datatype Response = NotOk(status: nat) | Ok(text: Option<string>) | Failed(message: string)

  const EmptySummary: string := "Could not generate a summary. The response from the AI was empty."
  const StatusErrorPrefix: string := "API call failed with status: "
  const ErrorSummaryPrefix: string := "An error occurred while generating the summary: "
  const ErrorSummarySuffix: string := ". Please try again later."

  /** The message of the error thrown for a non-ok status. */
  function StatusError(status: nat): string {
    StatusErrorPrefix + Decimal.NatToString(status)
  }

  /** The text shown when the request failed with `message`. */
  function ErrorSummary(message: string): string {
    ErrorSummaryPrefix + message + ErrorSummarySuffix
  }

  predicate Contains(s: string, part: string) {
    exists i, j :: 0 <= i <= j <= |s| && s[i..j] == part
  }

  /** The text the summary shows once the response is in. */
  function SummaryText(response: Response): (s: string)
    ensures |s| > 0
    ensures response.Ok? && response.text.Some? && response.text.value != "" ==> s == response.text.value
    ensures response.Ok? && (response.text.None? || response.text.value == "") ==> s == EmptySummary
    ensures response.NotOk? ==> s == ErrorSummary(StatusError(response.status))
    ensures response.Failed? ==> s == ErrorSummary(response.message)
  {
    match response
    case NotOk(status) => ErrorSummary(StatusError(status))
    case Ok(text) => if text.Some? && text.value != "" then text.value else EmptySummary
    case Failed(message) => ErrorSummary(message)
  }

  /** The text for a non-ok status contains the status message, and the status can be read back from it. */
  lemma NotOkSummaryNamesStatus(status: nat)
    ensures Contains(SummaryText(NotOk(status)), StatusError(status))
    ensures var s := SummaryText(NotOk(status));
            var start := |ErrorSummaryPrefix| + |StatusErrorPrefix|;
            var end := |s| - |ErrorSummarySuffix|;
            0 <= start <= end <= |s| && Decimal.AllDigits(s[start..end]) && Decimal.ParseDecimal(s[start..end]) == status
  {
    var s := SummaryText(NotOk(status));
    var digits := Decimal.NatToString(status);
    assert s == ErrorSummaryPrefix + (StatusErrorPrefix + digits) + ErrorSummarySuffix;
    var k := |ErrorSummaryPrefix|;
    assert s[k..k + |StatusError(status)|] == StatusError(status);
    assert 0 <= k <= k + |StatusError(status)| <= |s|;
    var start := |ErrorSummaryPrefix| + |StatusErrorPrefix|;
    assert s[start..|s| - |ErrorSummarySuffix|] == digits;
    Decimal.ParseNatToString(status);
  }

  // ---------------------------------------------------------------------
  // The session
  // ---------------------------------------------------------------------

  /** What the component renders: the loading view, or the form at a section. */
  datatype View = Loading | FormView(section: nat)

  /** The component's state hooks, as one value. */
  datatype Hooks = Hooks(
    currentSectionIndex: nat,
    formData: Answers,
    userId: Option<string>,
    isAuthReady: bool,
    formId: Option<string>,
    isSaving: bool,
    aiSummary: string,
    isGenerating: bool)

  /** The dependencies of the record-creating effect; React runs it again only when one of them changed. */
  datatype EffectDeps = EffectDeps(isAuthReady: bool, userId: Option<string>, formId: Option<string>)

  /** The number of record creations in a request log. */
  ghost function CreateCount(log: seq<Request>): nat
    decreases |log|
  {
    if |log| == 0 then 0
    else CreateCount(log[..|log| - 1]) + (if log[|log| - 1].CreateRecord? then 1 else 0)
  }

  lemma CreateCountAppend(log: seq<Request>, r: Request)
    ensures CreateCount(log + [r]) == CreateCount(log) + (if r.CreateRecord? then 1 else 0)
  {
    assert (log + [r])[..|log|] == log;
  }

  /** The widget for `field`, rendered with answer `current`, can report event `e`. */
  predicate Offered(field: Schema.FieldSpec, current: Option<Value>, e: Edit) {
    var shape := ShapeOf(field.fieldType);
    && shape.Some?
    && Change(shape.value, current, e).Some?
    && (shape.value.SingleChoice? ==> e.raw in field.options)
    && (e.Toggle? ==> e.option in field.options && e.isChecked == !CheckboxChecked(current, e.option))
  }

  class Session {
    var currentSectionIndex: nat
    var formData: Answers
    var userId: Option<string>
    var isAuthReady: bool
    var formId: Option<string>
    var isSaving: bool
    var aiSummary: string
    var isGenerating: bool

    /** Every request issued so far, oldest first. */
    ghost var log: seq<Request>
    /** Saves issued whose write has not finished yet. */
    ghost var pendingSaves: nat
    /** The number of creations issued when the record id became set. */
    ghost var createsWhenIdSet: nat
    /** The record-creating effect's dependencies when it last ran (`None` before its first run). */
    ghost var lastCreateEffectDeps: Option<EffectDeps>
    /** How often the auth callback changed the user id. */
    ghost var userSwitches: nat
    /** A creation was issued since the user id last changed. */
    ghost var createdSinceSwitch: bool
    /** The number of creations in `log`, kept alongside it. */
    ghost var creates: nat

    function CreateEffectDeps(): EffectDeps
      reads this
    {
      EffectDeps(isAuthReady, userId, formId)
    }

    ghost predicate Valid()
      reads this
    {
      && currentSectionIndex < Schema.SectionCount
      // record ids are never empty
      && (formId.Some? ==> formId.value != "")
      && creates == CreateCount(log)
      // a record id only comes back from a creation that was issued
      && (formId.Some? ==> creates > 0)
      // once the record id is set, no further creation is issued
      && (Truthy(formId) ==> creates == createsWhenIdSet)
      // creations are only issued after auth settled
      && (creates > 0 ==> isAuthReady)
      // at most one creation per change of the user id by the auth callback
      && creates <= userSwitches
      && (Truthy(userId) && !createdSinceSwitch ==> creates < userSwitches)
      && (createdSinceSwitch ==> creates > 0)
      && (createdSinceSwitch ==> Truthy(formId) || lastCreateEffectDeps == Some(CreateEffectDeps()))
      && (isSaving ==> pendingSaves > 0)
    }

    function HookState(): Hooks
      reads this
    {
      Hooks(currentSectionIndex, formData, userId, isAuthReady, formId, isSaving, aiSummary, isGenerating)
    }

    /** The loading view shows until auth has settled and a record id is set. */
    function View(): (v: View)
      reads this
      ensures v.FormView? <==> isAuthReady && Truthy(formId)
      ensures v.FormView? ==> v.section == currentSectionIndex
    {
      if !isAuthReady || !Truthy(formId) then Loading else FormView(currentSectionIndex)
    }

    /** The form only shows once a record was created, and then the session stays past the creation guard. */
    lemma FormShownOnlyAfterCreate()
      requires Valid()
      ensures View().FormView? ==> CreateCount(log) > 0 && !MayCreateRecord(isAuthReady, userId, formId)
    {
    }

    /** At most one creation per change of the user id: a session that only ever sees one user creates at most one record. */
    lemma CreationsBoundedByUsers()
      requires Valid()
      ensures CreateCount(log) <= userSwitches
      ensures userSwitches == 1 ==> CreateCount(log) <= 1
    {
    }

    constructor ()
      ensures Valid()
      ensures HookState() == Hooks(0, map[], None, false, None, false, "", false)
      ensures log == [] && pendingSaves == 0 && userSwitches == 0 && lastCreateEffectDeps == None
      ensures View() == Loading
    {
      currentSectionIndex := 0;
      formData := map[];
      userId := None;
      isAuthReady := false;
      formId := None;
      isSaving := false;
      aiSummary := "";
      isGenerating := false;
      log := [];
      pendingSaves := 0;
      createsWhenIdSet := 0;
      lastCreateEffectDeps := None;
      userSwitches := 0;
      createdSinceSwitch := false;
      creates := 0;
    }

    /**
     * The auth callback. A user sets the user id; no user starts a sign-in
     * (whose failure is only logged) and keeps the old user id. Either way
     * auth is then ready.
     */
    method AuthStateChanged(user: Option<string>, token: Option<string>)
      requires Valid()
      modifies this
      ensures Valid()
      ensures user.Some? ==> HookState() == old(HookState()).(userId := user, isAuthReady := true)
      ensures user.Some? ==> log == old(log)
      ensures user.None? ==> HookState() == old(HookState()).(isAuthReady := true)
      ensures user.None? ==> log == old(log) + [SignInRequest(token)]
      ensures userSwitches == old(userSwitches) + (if user.Some? && user != old(userId) then 1 else 0)
      ensures pendingSaves == old(pendingSaves) && lastCreateEffectDeps == old(lastCreateEffectDeps)
    {
      if user.Some? {
        if user != userId {
          userSwitches := userSwitches + 1;
          createdSinceSwitch := false;
        }
        userId := user;
      } else {
        CreateCountAppend(log, SignInRequest(token));
        log := log + [SignInRequest(token)];
      }
      isAuthReady := true;
    }

    /**
     * The record-creating effect, run on mount and whenever one of its
     * dependencies changed: issues one creation, with empty answers and
     * status in-progress, when its guard holds.
     */
    method RunCreateRecordEffect()
      requires Valid() && lastCreateEffectDeps != Some(CreateEffectDeps())
      modifies this
      ensures Valid()
      ensures HookState() == old(HookState())
      ensures MayCreateRecord(old(isAuthReady), old(userId), old(formId)) ==>
                log == old(log) + [CreateRecord(old(userId).value, InProgress, map[])]
      ensures !MayCreateRecord(old(isAuthReady), old(userId), old(formId)) ==> log == old(log)
      ensures lastCreateEffectDeps == Some(CreateEffectDeps())
      ensures pendingSaves == old(pendingSaves) && userSwitches == old(userSwitches)
    {
      if isAuthReady && Truthy(userId) && !Truthy(formId) {
        CreateCountAppend(log, CreateRecord(userId.value, InProgress, map[]));
        log := log + [CreateRecord(userId.value, InProgress, map[])];
        creates := creates + 1;
        createdSinceSwitch := true;
      }
      lastCreateEffectDeps := Some(CreateEffectDeps());
    }

    /** An issued creation came back with the new record's id (never empty). */
    method RecordCreated(id: string)
      requires Valid() && CreateCount(log) > 0 && id != ""
      modifies this
      ensures Valid()
      ensures HookState() == old(HookState()).(formId := Some(id))
      ensures log == old(log) && pendingSaves == old(pendingSaves)
      ensures userSwitches == old(userSwitches) && lastCreateEffectDeps == old(lastCreateEffectDeps)
    {
      if !Truthy(formId) {
        createsWhenIdSet := creates;
      }
      formId := Some(id);
    }

    /** A snapshot from the record listener, which is open while both ids are set. */
    method SnapshotArrived(snap: Snapshot)
      requires Valid() && Truthy(formId) && Truthy(userId)
      modifies this
      ensures Valid()
      ensures HookState() == old(HookState()).(formData := AfterSnapshot(old(formData), snap))
      ensures log == old(log) && pendingSaves == old(pendingSaves)
      ensures userSwitches == old(userSwitches) && lastCreateEffectDeps == old(lastCreateEffectDeps)
    {
      if snap.Present? {
        formData := snap.formData.GetOr(map[]);
      }
    }

    /** The answer-map handler every field calls. */
    method HandleFormChange(id: string, value: Value)
      requires Valid() && View().FormView?
      modifies this
      ensures Valid()
      ensures HookState() == old(HookState()).(formData := WithAnswer(old(formData), id, value))
      ensures log == old(log) && pendingSaves == old(pendingSaves)
      ensures userSwitches == old(userSwitches) && lastCreateEffectDeps == old(lastCreateEffectDeps)
    {
      formData := formData[id := value];
    }

    /** Field `f` of the current section reports event `e`; its widget computes the new answer and hands it on. */
    method EditField(f: nat, e: Edit)
      requires Valid() && View().FormView?
      requires f < |Schema.Sections[currentSectionIndex].fields|
      requires var field := Schema.Sections[currentSectionIndex].fields[f];
               Offered(field, Lookup(formData, field.id), e)
      modifies this
      ensures Valid()
      ensures var field := Schema.Sections[old(currentSectionIndex)].fields[f];
              var current := Lookup(old(formData), field.id);
              var shape := ShapeOf(field.fieldType).value;
              HookState() == old(HookState()).(formData := WithAnswer(old(formData), field.id, Change(shape, current, e).value))
      ensures log == old(log) && pendingSaves == old(pendingSaves)
      ensures userSwitches == old(userSwitches) && lastCreateEffectDeps == old(lastCreateEffectDeps)
    {
      var field := Schema.Sections[currentSectionIndex].fields[f];
      var value := Change(ShapeOf(field.fieldType).value, Lookup(formData, field.id), e);
      HandleFormChange(field.id, value.value);
    }

    /** Save: unless an id is missing, mark saving and issue a merge write of the whole answer map with status saved. */
    method HandleSave()
      requires Valid()
      modifies this
      ensures Valid()
      ensures var req := SaveRequest(old(userId), old(formId), old(formData));
              && log == old(log) + (if req.Some? then [req.value] else [])
              && HookState() == (if req.Some? then old(HookState()).(isSaving := true) else old(HookState()))
              && pendingSaves == old(pendingSaves) + (if req.Some? then 1 else 0)
      ensures userSwitches == old(userSwitches) && lastCreateEffectDeps == old(lastCreateEffectDeps)
    {
      if !Truthy(formId) || !Truthy(userId) {
        return;
      }
      isSaving := true;
      CreateCountAppend(log, SaveWrite(userId.value, formId.value, formData, Saved, true));
      log := log + [SaveWrite(userId.value, formId.value, formData, Saved, true)];
      pendingSaves := pendingSaves + 1;
    }

    /** A save's write finished, with success or failure; either way saving is over. */
    method SaveFinished(succeeded: bool)
      requires Valid() && pendingSaves > 0
      modifies this
      ensures Valid()
      ensures HookState() == old(HookState()).(isSaving := false)
      ensures log == old(log) && pendingSaves == old(pendingSaves) - 1
      ensures userSwitches == old(userSwitches) && lastCreateEffectDeps == old(lastCreateEffectDeps)
    {
      isSaving := false;
      pendingSaves := pendingSaves - 1;
    }

    /** Previous: save with the answers as they stand, then move back one section, not past the first. */
    method PrevSection()
      requires Valid() && View().FormView?
      modifies this
      ensures Valid()
      ensures var req := SaveRequest(old(userId), old(formId), old(formData));
              && log == old(log) + (if req.Some? then [req.value] else [])
              && HookState() == (if req.Some? then old(HookState()).(isSaving := true) else old(HookState()))
                                  .(currentSectionIndex := PrevIndex(old(currentSectionIndex)))
              && pendingSaves == old(pendingSaves) + (if req.Some? then 1 else 0)
      ensures userSwitches == old(userSwitches) && lastCreateEffectDeps == old(lastCreateEffectDeps)
    {
      HandleSave();
      NavigationStaysInBounds(currentSectionIndex, Schema.SectionCount);
      currentSectionIndex := PrevIndex(currentSectionIndex);
    }

    /** Next: save with the answers as they stand, then move on one section, not past the last. */
    method NextSection()
      requires Valid() && View().FormView?
      modifies this
      ensures Valid()
      ensures var req := SaveRequest(old(userId), old(formId), old(formData));
              && log == old(log) + (if req.Some? then [req.value] else [])
              && HookState() == (if req.Some? then old(HookState()).(isSaving := true) else old(HookState()))
                                  .(currentSectionIndex := NextIndex(old(currentSectionIndex), Schema.SectionCount))
              && pendingSaves == old(pendingSaves) + (if req.Some? then 1 else 0)
      ensures userSwitches == old(userSwitches) && lastCreateEffectDeps == old(lastCreateEffectDeps)
    {
      HandleSave();
      NavigationStaysInBounds(currentSectionIndex, Schema.SectionCount);
      currentSectionIndex := NextIndex(currentSectionIndex, Schema.SectionCount);
    }

    /** A progress-bar button: go straight to that section, without saving. */
    method JumpToSection(index: nat)
      requires Valid() && View().FormView? && index < Schema.SectionCount
      modifies this
      ensures Valid()
      ensures HookState() == old(HookState()).(currentSectionIndex := index)
      ensures log == old(log) && pendingSaves == old(pendingSaves)
      ensures userSwitches == old(userSwitches) && lastCreateEffectDeps == old(lastCreateEffectDeps)
    {
      currentSectionIndex := index;
    }

    /** The generate button, shown on the last section and disabled while generating: clear the text and request a summary of the answers. */
    method GenerateSummary()
      requires Valid() && View().FormView?
      requires currentSectionIndex == Schema.SectionCount - 1 && !isGenerating
      modifies this
      ensures Valid()
      ensures HookState() == old(HookState()).(isGenerating := true, aiSummary := "")
      ensures log == old(log) + [GenerateContent(old(formData))]
      ensures pendingSaves == old(pendingSaves)
      ensures userSwitches == old(userSwitches) && lastCreateEffectDeps == old(lastCreateEffectDeps)
    {
      isGenerating := true;
      aiSummary := "";
      CreateCountAppend(log, GenerateContent(formData));
      log := log + [GenerateContent(formData)];
    }

    /** The summary response arrived: show the text it classifies to, and stop generating. */
    method SummaryReceived(response: Response)
      requires Valid() && isGenerating
      modifies this
      ensures Valid()
      ensures HookState() == old(HookState()).(aiSummary := SummaryText(response), isGenerating := false)
      ensures log == old(log) && pendingSaves == old(pendingSaves)
      ensures userSwitches == old(userSwitches) && lastCreateEffectDeps == old(lastCreateEffectDeps)
    {
      aiSummary := SummaryText(response);
      isGenerating := false;
    }
  }
}
