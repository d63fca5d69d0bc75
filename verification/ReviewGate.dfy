/** Review decisions and the files they let callers without profit permission download. */
module ReviewGate {
  import opened Prelude
  import opened DocumentPinning

  // ---- Who may download ---------------------------------------------------------------------------------

  /** A digest is of one exact file version under one title: any other fact gives another digest. */
  lemma {:induction false} DigestTells(id: Id, document: Document, v: Version, id': Id, document': Document,
      v': Version)
    ensures ContentDigest(id, document, v) == ContentDigest(id', document', v') <==>
      && id == id' && document.title == document'.title && v.document == v'.document && v.mime == v'.mime
      && v.declaredSize == v'.declaredSize && v.declared == v'.declared
      && v.actualSize == v'.actualSize && v.actual == v'.actual && v.pinned == v'.pinned
  {
  }

  /** A caller with profit permission downloads any available, pinned version; another caller only one whose
      recorded release is of the file as it now is. */
  lemma {:induction false} PointerNeeds(s: System, id: Id, profit: bool)
    ensures PointerTo(s, id, profit).Some? <==>
      && id in s.versions && s.versions[id].document in s.documents
      && s.versions[id].status == Available && s.versions[id].pinned.Some?
      && (profit || s.versions[id].releasedDigest
            == Some(ContentDigest(id, s.documents[s.versions[id].document], s.versions[id])))
    ensures PointerTo(s, id, profit).Some? ==>
      PointerTo(s, id, profit).value ==
        Pointer(
          id, s.versions[id].pinned.value, ContentDigest(id, s.documents[s.versions[id].document], s.versions[id]))
  {
  }

  /** A decision needs the row as the reader saw it; a release also needs verified, pinned, scanned bytes. */
  lemma {:induction false} ReviewNeeds(s: System, id: Id, digest: Digest, expected: int, release: bool)
    ensures Enabled(s, Review(id, digest, expected, release)) <==>
      && id in s.versions && s.versions[id].document in s.documents && s.versions[id].version == expected
      && digest == ContentDigest(id, s.documents[s.versions[id].document], s.versions[id])
      && (release ==>
            && s.versions[id].status == Available && s.versions[id].pinned.Some?
            && s.versions[id].actual == Some(s.versions[id].declared)
            && s.versions[id].actualSize == Some(s.versions[id].declaredSize))
  {
  }

  // ---- A release opens the file -----------------------------------------------------------------------------

  /** Right after a release the pointer to exactly that file is handed out to every caller. */
  lemma {:induction false} ReleaseOpens(s: System, id: Id, digest: Digest, expected: int, profit: bool)
    requires Enabled(s, Review(id, digest, expected, true))
    ensures var s' := Next(s, Review(id, digest, expected, true));
      PointerTo(s', id, profit) == Some(Pointer(id, s.versions[id].pinned.value, digest))
  {
  }

  ghost predicate LeavesFile(s: System, step: Step, id: Id)
    requires id in s.versions && s.versions[id].document in s.documents
  {
    var s' := Next(s, step);
    && id in s'.versions && s'.versions[id].document == s.versions[id].document
    && s.versions[id].document in s'.documents
    && ContentDigest(id, s'.documents[s.versions[id].document], s'.versions[id])
       == ContentDigest(id, s.documents[s.versions[id].document], s.versions[id])
  }

  /** And it stays open through every step that neither decides on it again nor changes the file or title. */
  lemma {:induction false} ReleaseStays(s: System, step: Step, id: Id)
    requires PointerTo(s, id, false).Some? && LeavesFile(s, step, id)
    requires !(step.Review? && step.id == id && Enabled(s, step))
    ensures PointerTo(Next(s, step), id, false) == PointerTo(s, id, false)
  {
    if Enabled(s, step) {
      VersionIs(s, step, id);
    }
  }

  // ---- A withdrawal closes it --------------------------------------------------------------------------------

  ghost predicate Unreleased(s: System, id: Id) { id in s.versions && s.versions[id].releasedDigest.None? }

  lemma {:induction false} WithdrawalCloses(s: System, id: Id, digest: Digest, expected: int)
    requires Enabled(s, Review(id, digest, expected, false))
    ensures Unreleased(Next(s, Review(id, digest, expected, false)), id)
  {
  }

  ghost predicate Releases(s: System, step: Step, id: Id) {
    step.Review? && step.id == id && step.release && Enabled(s, step)
  }

  lemma {:induction false} StaysUnreleased(s: System, step: Step, id: Id)
    requires Unreleased(s, id) && !Releases(s, step, id)
    ensures Unreleased(Next(s, step), id)
  {
    if Enabled(s, step) {
      VersionIs(s, step, id);
    }
  }

  /** A URL for version `id` goes out to a caller without profit permission. */
  ghost predicate Issues(s: System, step: Step, id: Id) {
    step.IssueUrl? && step.call in s.downloads && s.downloads[step.call].id == id && !s.downloads[step.call].profit
    && Next(s, step).issued != s.issued
  }

  lemma {:induction false} NoneReleased(s: System, steps: seq<Step>, id: Id)
    requires Unreleased(s, id)
    requires forall i :: 0 <= i < |steps| ==> !Releases(Run(s, steps[..i]), steps[i], id)
    ensures forall i :: 0 <= i <= |steps| ==> Unreleased(Run(s, steps[..i]), id)
  {
    if steps == [] {
      assert steps[..0] == [];
    } else {
      var init := steps[..|steps| - 1];
      forall i | 0 <= i < |init| ensures !Releases(Run(s, init[..i]), init[i], id) {
        assert init[..i] == steps[..i];
      }
      NoneReleased(s, init, id);
      forall i | 0 <= i <= |steps| ensures Unreleased(Run(s, steps[..i]), id) {
        if i < |steps| {
          assert init[..i] == steps[..i];
        } else {
          assert init[..|init|] == init && steps[..i] == steps;
          assert !Releases(Run(s, steps[..|steps| - 1]), steps[|steps| - 1], id);
          StaysUnreleased(Run(s, init), steps[|steps| - 1], id);
        }
      }
    }
  }

  lemma {:induction false} ClosedFor(s: System, id: Id)
    requires Unreleased(s, id)
    ensures PointerTo(s, id, false) == None && forall step :: !Issues(s, step, id)
  {
  }

  lemma {:induction false} UnreleasedForGood(s: System, id: Id, steps: seq<Step>)
    requires Unreleased(s, id)
    requires forall i :: 0 <= i < |steps| ==> !Releases(Run(s, steps[..i]), steps[i], id)
    ensures PointerTo(Run(s, steps), id, false) == None
    ensures forall i :: 0 <= i < |steps| ==> !Issues(Run(s, steps[..i]), steps[i], id)
  {
    NoneReleased(s, steps, id);
    assert steps[..|steps|] == steps;
    ClosedFor(Run(s, steps), id);
    forall i | 0 <= i < |steps| ensures !Issues(Run(s, steps[..i]), steps[i], id) {
      ClosedFor(Run(s, steps[..i]), id);
    }
  }

  /** After a decision not to release, and until someone releases the version again: no pointer to it for a
      caller without profit permission, and no URL, whatever was read before the decision. */
  lemma {:induction false} WithdrawnForGood(s: System, id: Id, digest: Digest, expected: int, steps: seq<Step>)
    requires Enabled(s, Review(id, digest, expected, false))
    requires var s' := Next(s, Review(id, digest, expected, false));
      forall i :: 0 <= i < |steps| ==> !Releases(Run(s', steps[..i]), steps[i], id)
    ensures var s' := Next(s, Review(id, digest, expected, false));
      && PointerTo(Run(s', steps), id, false) == None
      && forall i :: 0 <= i < |steps| ==> !Issues(Run(s', steps[..i]), steps[i], id)
  {
    WithdrawalCloses(s, id, digest, expected);
    UnreleasedForGood(Next(s, Review(id, digest, expected, false)), id, steps);
  }

  // ---- The life of a version ------------------------------------------------------------------------------------

  /** How an enabled step moves a version: completion uploads a pending one with the inspected facts and pins
      it, or pins an older one; a scan opens an uploaded one; nothing else moves it. */
  lemma {:induction false} VersionMoves(s: System, step: Step, id: Id)
    requires id in s.versions && Enabled(s, step)
    ensures id in Next(s, step).versions
    ensures var v, w := s.versions[id], Next(s, step).versions[id];
      && (w.status != v.status ==>
            || (v.status == PendingUpload && w.status == Uploaded && step.CommitCompletion?)
            || (v.status == Uploaded && w.status == Available && step == MarkAvailable(id)))
      && (w.actual != v.actual || w.actualSize != v.actualSize ==> v.status == PendingUpload && step.CommitCompletion?)
      && (w.pinned != v.pinned ==> v.status == PendingUpload || v.pinned.None?)
      && (v.status == Rejected ==> w.(releasedDigest := v.releasedDigest, version := v.version) == v)
  {
    VersionIs(s, step, id);
  }

  /** The locked half of complete(), on the object it inspected. */
  lemma {:induction false} CompletionWrites(s: System, call: Id)
    requires Enabled(s, CommitCompletion(call))
    ensures var c, id := s.completions[call], s.completions[call].id;
      var v, w, o := s.versions[id], Next(s, CommitCompletion(call)).versions[id], c.inspected.value;
      && (v.status == PendingUpload ==>
            w == v.(
              status := Uploaded, actualSize := Some(|s.objects[o].bytes|), actual := Some(s.objects[o].bytes),
              pinned := Some(o), version := v.version + 1))
      && (v.status in {Uploaded, Scanning, Available} && v.pinned.None? ==>
            w == v.(pinned := Some(o), version := v.version + 1))
      && (v.status in {Uploaded, Scanning, Available} && v.pinned.Some? ==> w == v)
      && (v.status == Rejected ==> w == v)
    ensures var c := s.completions[call];
      && |s.objects[c.inspected.value].bytes| == c.declaredSize && s.objects[c.inspected.value].bytes == c.declared
      && (s.objects[c.inspected.value].mime.None? || s.objects[c.inspected.value].mime == Some(c.mime))
  {
  }

  /** A replacement needs the document as the caller saw it; it adds a pending version under the next number. */
  lemma {:induction false} ReplaceAnswers(s: System, d: Id, id: Id, expected: int, size: nat, declared: Bytes, mime: Id)
    requires id !in s.versions
    ensures Enabled(s, Replace(d, id, expected, size, declared, mime)) <==>
      d in s.documents && s.documents[d].version == expected
    ensures Enabled(s, Replace(d, id, expected, size, declared, mime)) ==>
      var document := s.documents[d];
      Next(s, Replace(d, id, expected, size, declared, mime)) == s.(
        documents := s.documents[d := Document(document.title, document.latest + 1, expected + 1)],
        versions := s.versions[id :=
          Version(d, document.latest + 1, size, declared, mime, PendingUpload, None, None, None, None, 1)])
  {
  }

  lemma {:induction false} NewDocumentWrites(s: System, d: Id, id: Id, title: Id, size: nat, declared: Bytes, mime: Id)
    requires d !in s.documents && id !in s.versions
    ensures Next(s, NewDocument(d, id, title, size, declared, mime)) == s.(
      documents := s.documents[d := Document(title, 1, 1)],
      versions := s.versions[id := Version(d, 1, size, declared, mime, PendingUpload, None, None, None, None, 1)])
  {
  }

  /** Every change of a document or version row moves its version on by one. */
  lemma {:induction false} VersionsCount(s: System, step: Step, id: Id)
    requires id in s.versions && Enabled(s, step)
    ensures id in Next(s, step).versions
    ensures var v, w := s.versions[id], Next(s, step).versions[id];
      && (w.version == v.version || w.version == v.version + 1)
      && (w.version == v.version ==> w == v)
      && (step.Review? && step.id == id ==> w.version == v.version + 1)
  {
    VersionIs(s, step, id);
  }

  lemma {:induction false} DocumentsCount(s: System, step: Step, d: Id)
    requires d in s.documents && Enabled(s, step)
    ensures d in Next(s, step).documents
    ensures var before, after := s.documents[d], Next(s, step).documents[d];
      && (after.version == before.version || after.version == before.version + 1)
      && (after.version == before.version ==> after == before)
      && (step.Retitle? && step.document == d ==>
            after == before.(title := step.title, version := before.version + 1))
  {
  }
}
