/**
 * Sessions driven through whole event sequences, using only the contracts
 * of the session's methods: what a caller can conclude from them.
 */
module Scenarios {
  import opened Wrappers
  import opened FormField
  import opened FormSession
  import Schema

  /** Sign in, get a record, load an empty snapshot: the form shows its first section. */
  method OpenForm(uid: string, recordId: string) returns (s: Session)
    requires uid != "" && recordId != ""
    ensures fresh(s) && s.Valid()
    ensures s.View() == FormView(0)
    ensures s.formData == map[] && s.userId == Some(uid) && s.formId == Some(recordId)
    ensures s.log == [CreateRecord(uid, InProgress, map[])] && s.pendingSaves == 0
    ensures s.userSwitches == 1
    ensures !s.isSaving && !s.isGenerating
  {
    s := new Session();
    s.RunCreateRecordEffect();  // on mount
    s.AuthStateChanged(Some(uid), None);
    s.RunCreateRecordEffect();  // userId and isAuthReady changed
    assert CreateCount(s.log) == 1 by {
      assert s.log == [] + [CreateRecord(uid, InProgress, map[])];
      CreateCountAppend([], CreateRecord(uid, InProgress, map[]));
    }
    s.RecordCreated(recordId);
    s.RunCreateRecordEffect();  // formId changed
    s.SnapshotArrived(Present(Some(map[])));
  }

  /** Editing the family name and pressing Next moves to section 1 and saves the edited answers. */
  method FamilyNameThenNext() {
    var s := OpenForm("uid-1", "form-1");
    assert Schema.Sections[0].fields[1].id == "familyName";
    s.EditField(1, Input("Kahale"));
    assert s.formData == map["familyName" := Text("Kahale")];
    s.NextSection();
    assert s.currentSectionIndex == 1;
    assert s.log[|s.log| - 1] == SaveWrite("uid-1", "form-1", map["familyName" := Text("Kahale")], Saved, true);
    assert s.isSaving;
    s.SaveFinished(false);
    assert !s.isSaving && s.formData["familyName"] == Text("Kahale");
  }

  /** With no user and no token, auth still becomes ready, creation stays blocked and only the loading view shows. */
  method NoUserStaysLoading() {
    var s := new Session();
    s.RunCreateRecordEffect();
    s.AuthStateChanged(None, None);
    assert s.isAuthReady && s.log == [SignInAnonymously];
    s.RunCreateRecordEffect();
    assert s.log == [SignInAnonymously];
    assert s.View() == Loading;
  }

  /** Repeated auth callbacks with the same user, before and after the record id arrives, issue no second creation. */
  method CreationHappensOnce() {
    var s := new Session();
    s.RunCreateRecordEffect();
    s.AuthStateChanged(Some("uid-1"), None);
    s.RunCreateRecordEffect();
    s.AuthStateChanged(Some("uid-1"), None);  // same user: no dependency changed, so the effect does not run
    assert s.userSwitches == 1;
    s.CreationsBoundedByUsers();
    assert s.log == [CreateRecord("uid-1", InProgress, map[])];
    assert CreateCount(s.log) == 1 by {
      assert s.log == [] + [CreateRecord("uid-1", InProgress, map[])];
      CreateCountAppend([], CreateRecord("uid-1", InProgress, map[]));
    }
    s.RecordCreated("form-1");
    s.RunCreateRecordEffect();
    s.AuthStateChanged(Some("uid-1"), None);
    assert s.log == [CreateRecord("uid-1", InProgress, map[])];
  }

  /** A different user reported while the first creation is still out re-runs the effect and issues a second creation. */
  method SecondUserWhileCreatingCreatesTwice() {
    var s := new Session();
    s.RunCreateRecordEffect();
    s.AuthStateChanged(Some("uid-1"), None);
    s.RunCreateRecordEffect();
    s.AuthStateChanged(Some("uid-2"), None);
    s.RunCreateRecordEffect();
    assert s.log == [CreateRecord("uid-1", InProgress, map[]), CreateRecord("uid-2", InProgress, map[])];
  }

  /** A snapshot that arrives after an edit and before a save replaces the edited answers. */
  method SnapshotBeforeSaveLosesEdit() {
    var s := OpenForm("uid-1", "form-1");
    s.EditField(1, Input("Kahale"));
    var remote := map["visitDate" := Text("2024-01-01")];
    s.SnapshotArrived(Present(Some(remote)));
    assert "familyName" !in s.formData;
    s.HandleSave();
    assert s.log[|s.log| - 1].data == remote;
  }

  /** Jumping by the progress bar changes section without a save; Previous at the first section stays there. */
  method JumpAndClamp() {
    var s := OpenForm("uid-1", "form-1");
    s.JumpToSection(3);
    assert s.currentSectionIndex == 3 && |s.log| == 1;
    s.NextSection();
    assert s.currentSectionIndex == 3 && |s.log| == 2;
    s.JumpToSection(0);
    s.PrevSection();
    assert s.currentSectionIndex == 0 && |s.log| == 3;
  }

  /** A non-ok status shows an error naming the status; an ok response without candidates shows the fallback. */
  method SummaryOutcomes() {
    var s := OpenForm("uid-1", "form-1");
    s.JumpToSection(1);
    assert Schema.Sections[1].fields[3].id == "sunlight";
    assert Schema.Sections[1].fields[3].options[0] == "Full Sun (6+ hours)";
    s.EditField(3, Input("Full Sun (6+ hours)"));
    s.JumpToSection(3);
    s.GenerateSummary();
    assert s.log[|s.log| - 1] == GenerateContent(map["sunlight" := Text("Full Sun (6+ hours)")]);
    s.SummaryReceived(NotOk(503));
    NotOkSummaryNamesStatus(503);
    assert Contains(s.aiSummary, StatusError(503)) && !s.isGenerating;
    s.GenerateSummary();
    s.SummaryReceived(Ok(None));
    assert s.aiSummary == EmptySummary && !s.isGenerating;
  }

  /** Checking a box and unchecking it again leaves the answer as an empty list. */
  method CheckThenUncheckBox() {
    var s := OpenForm("uid-1", "form-1");
    assert Schema.Sections[0].fields[12].id == "gardenCaretakers";
    assert Schema.Sections[0].fields[12].options[1] == "Mākua (adults)";
    s.EditField(12, Toggle("Mākua (adults)", true));
    assert s.formData["gardenCaretakers"] == Items(["Mākua (adults)"]);
    s.EditField(12, Toggle("Mākua (adults)", false));
    assert s.formData["gardenCaretakers"] == Items([]);
  }
}
