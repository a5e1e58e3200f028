// Replacing the environment file so that a crash at any point leaves one of two states that can be told
// apart (scripts/system-update-updater-atomic.py:255-409).

module EnvReplace {
  import opened Common

  type Inode = nat

  // A file on disk; until it is synced, a power loss may leave anything in it.
  datatype File = File(payload: string, inode: Inode, synced: bool)

  // What the running system sees of the environment path and the recovery marker, and what the directories
  // hold on disk.
  datatype Disk = Disk(
    env: File, envOnDisk: File, marker: bool, markerOnDisk: bool, temporary: Option<File>, nextStat: Option<Inode>)

  // A crash of the process loses nothing; a power loss may bring back what the directory holds on disk.
  predicate Survives(d: Disk, f: File) {
    f == d.env || f == d.envOnDisk
  }

  datatype State = OriginalState | TargetState

  // classify_environment; None where it fails.
  function Classify(f: File, original: string, originalInode: Inode, target: string): Option<State> {
    if f.payload == target then Some(TargetState)
    else if f.payload == original && f.inode == originalInode then Some(OriginalState)
    else None
  }

  // A file is told as the target by its text, as the original by its text and inode, and is otherwise unknown.
  lemma ClassificationIsExact(f: File, original: string, originalInode: Inode, target: string)
    requires original != target
    ensures var state := Classify(f, original, originalInode, target);
            && (state == Some(TargetState) <==> f.payload == target)
            && (state == Some(OriginalState) <==> f.payload == original && f.inode == originalInode)
  {
  }

  // The fate of one operation: it works, it fails without effect, or it takes effect and then fails.
  datatype Fate = Works | FailsBefore | FailsAfter

  // What every moment of a replacement keeps, from the file it found on.
  ghost predicate Safe(found: File, expected: string, expectedInode: Inode, source: string, marked: bool, d: Disk) {
    forall f :: Survives(d, f) ==>
      || f == found
      || (&& found.payload == expected && found.inode == expectedInode
          && f.payload == source && f.inode != expectedInode && f.synced
          && (marked ==> d.marker && d.markerOnDisk))
  }

  ghost predicate AllSafe(
    found: File, expected: string, expectedInode: Inode, source: string, marked: bool, moments: seq<Disk>)
  {
    forall d :: d in moments ==> Safe(found, expected, expectedInode, source, marked, d)
  }

  // What a crash at this moment leaves can be classified, and the answer is right: original means the untouched
  // file, target a complete new one whose change is already marked on disk.
  ghost predicate CrashTells(found: File, original: string, originalInode: Inode, target: string, d: Disk) {
    forall f :: Survives(d, f) ==>
      var state := Classify(f, original, originalInode, target);
      && state.Some?
      && (state == Some(OriginalState) <==> f == found)
      && (state == Some(TargetState) ==> f.payload == target && f.inode != originalInode && f.synced && d.markerOnDisk)
  }

  class Machine {
    var disk: Disk
    var clock: nat
    const fates: nat -> Fate
    const inodes: nat -> Inode
    ghost var moments: seq<Disk>

    constructor (disk: Disk, fates: nat -> Fate, inodes: nat -> Inode)
      ensures this.disk == disk && this.fates == fates && this.inodes == inodes && clock == 0 && moments == [disk]
    {
      this.disk := disk;
      this.fates := fates;
      this.inodes := inodes;
      clock := 0;
      moments := [disk];
    }

    // Every operation since then has worked.
    ghost predicate WorkedSince(moment: nat)
      reads this`clock
    {
      forall i :: moment <= i < clock ==> fates(i).Works?
    }

    // The two operations that put the marker on disk work.
    ghost predicate MarkerWorks(moment: nat) {
      fates(moment).Works? && fates(moment + 1).Works?
    }

    // One system call: its effect is there or not, and it reports success or raises.
    method Do(next: Disk) returns (ok: bool)
      modifies this
      ensures clock == old(clock) + 1 && (ok <==> fates(old(clock)).Works?)
      ensures disk == next || disk == old(disk)
      ensures ok ==> disk == next
      ensures moments == old(moments) + [disk]
    {
      var fate := fates(clock);
      clock := clock + 1;
      if !fate.FailsBefore? {
        disk := next;
      }
      moments := moments + [disk];
      ok := fate.Works?;
    }

    // validate_current_environment: the captured payload on the captured inode.
    function StillExpected(expected: string, expectedInode: Inode): bool
      reads this
    {
      disk.env.payload == expected && disk.env.inode == expectedInode
    }

    // private_write of the marker and fsync of its directory.
    method WriteMarker() returns (ok: bool)
      modifies this
      ensures disk.env == old(disk).env && disk.envOnDisk == old(disk).envOnDisk
      ensures disk.temporary == old(disk).temporary && disk.nextStat == old(disk).nextStat
      ensures ok <==> !old(disk).marker && WorkedSince(old(clock))
      ensures ok <==> !old(disk).marker && MarkerWorks(old(clock))
      ensures clock >= old(clock) && (ok ==> clock == old(clock) + 2)
      ensures ok ==> disk.marker && disk.markerOnDisk
      ensures old(moments) <= moments
      ensures forall k :: |old(moments)| <= k < |moments| ==>
                moments[k].env == old(disk).env && moments[k].envOnDisk == old(disk).envOnDisk
    {
      if disk.marker {
        return false;
      }
      ok := Do(disk.(marker := true));
      if ok {
        ok := Do(disk.(markerOnDisk := true));
      }
    }

    // The temporary file: created on a fresh inode, written and synced.
    method WriteTemporary(source: string) returns (ok: bool)
      modifies this
      ensures disk == old(disk).(temporary := disk.temporary)
      ensures ok <==> WorkedSince(old(clock))
      ensures clock > old(clock)
      ensures ok ==>
                && disk.temporary.Some? && disk.temporary.value.payload == source && disk.temporary.value.synced
                && disk.temporary.value.inode == inodes(old(clock))
                && moments == old(moments) + [
                     old(disk).(temporary := Some(File("", inodes(old(clock)), false))),
                     old(disk).(temporary := Some(File(source, inodes(old(clock)), false))),
                     old(disk).(temporary := Some(File(source, inodes(old(clock)), true)))]
      ensures old(moments) <= moments
      ensures forall k :: |old(moments)| <= k < |moments| ==> moments[k] == old(disk).(temporary := moments[k].temporary)
    {
      var file := File("", inodes(clock), false);
      ok := Do(disk.(temporary := Some(file)));
      if ok {
        ok := Do(disk.(temporary := Some(file.(payload := source))));
      }
      if ok {
        ok := Do(disk.(temporary := Some(file.(payload := source, synced := true))));
      }
    }

    // The rename and the sync of the parent directory.
    method Rename() returns (ok: bool)
      requires disk.temporary.Some?
      modifies this
      ensures disk.marker == old(disk).marker && disk.markerOnDisk == old(disk).markerOnDisk
      ensures disk.nextStat == old(disk).nextStat
      ensures ok <==> WorkedSince(old(clock))
      ensures clock > old(clock)
      ensures ok ==> disk.env == disk.envOnDisk == old(disk).temporary.value && disk.temporary.None?
      ensures disk.temporary.None? || disk.temporary == old(disk).temporary
      ensures old(moments) <= moments
      ensures forall k :: |old(moments)| <= k < |moments| ==> Renamed(old(disk), moments[k])
      ensures Renamed(old(disk), disk)
    {
      ok := Do(disk.(env := disk.temporary.value, temporary := None));
      if ok {
        ok := Do(disk.(envOnDisk := disk.env));
      }
    }

    // Another process puts its own file at the path.
    method Meddle(edit: Option<File>)
      modifies this
      ensures clock == old(clock) && old(moments) <= moments
      ensures edit.None? ==> disk == old(disk) && moments == old(moments)
      ensures edit.Some? ==> disk == old(disk).(env := edit.value, envOnDisk := edit.value) && moments == old(moments) + [disk]
    {
      if edit.Some? {
        disk := disk.(env := edit.value, envOnDisk := edit.value);
        moments := moments + [disk];
      }
    }

    // replace_environment.  Only the marker is written before the file is checked, and the new file is on disk
    // before it takes the old one's name.  Another process may put its own file there while the new one is written.
    method Replace(source: string, expected: string, expectedInode: Inode, marked: bool, edit: Option<File>)
      returns (ok: bool)
      requires disk.env == disk.envOnDisk
      modifies this
      ensures old(moments) <= moments
      ensures forall d :: d in moments[|old(moments)|..] ==>
                || Safe(old(disk).env, expected, expectedInode, source, marked, d)
                || (edit.Some? && Safe(edit.value, expected, expectedInode, source, marked, d))
      ensures ok ==>
                && disk.env == disk.envOnDisk && disk.env.payload == source && disk.env.synced
                && disk.env.inode != expectedInode && disk.nextStat == Some(disk.env.inode)
                && (marked ==> disk.marker && disk.markerOnDisk)
      // It succeeds exactly when every operation works on the file expected, no marker or record of an earlier attempt
      // stands in the way, the new file does not get the old one's inode, and nobody has put another file there.
      ensures ok <==>
                && WorkedSince(old(clock))
                && old(disk).env.payload == expected && old(disk).env.inode == expectedInode
                && (edit.Some? ==> edit.value.payload == expected && edit.value.inode == expectedInode)
                && (marked ==> !old(disk).marker) && old(disk).nextStat.None?
                && inodes(old(clock) + if marked then 2 else 0) != expectedInode
      ensures WorkedSince(old(clock)) && old(disk).temporary.None? ==> disk.temporary.None?
      // A file that is not the one expected is left alone, whenever it came.
      ensures !(old(disk).env.payload == expected && old(disk).env.inode == expectedInode) ==>
                !ok && disk.env == old(disk).env && disk.envOnDisk == old(disk).envOnDisk
      ensures edit.Some? && !(edit.value.payload == expected && edit.value.inode == expectedInode) ==>
                && !ok
                && disk.env == disk.envOnDisk
                && disk.env == if && old(disk).env.payload == expected && old(disk).env.inode == expectedInode
                                  && (marked ==> !old(disk).marker && MarkerWorks(old(clock)))
                               then edit.value else old(disk).env
      ensures marked && old(disk).env.payload == expected && old(disk).env.inode == expectedInode && source != expected
              && edit.None? ==>
                && CrashTells(old(disk).env, expected, expectedInode, source, disk)
                && forall d :: d in moments[|old(moments)|..] ==>
                     CrashTells(old(disk).env, expected, expectedInode, source, d)
    {
      ghost var start, known := disk, moments;
      assert moments[|known|..] == [];
      ok := true;
      if marked {
        ok := WriteMarker();
        UntouchedMoments(start.env, expected, expectedInode, source, marked, moments, |known|);
      }
      UntouchedIsSafe(start.env, expected, expectedInode, source, marked, disk);
      ok := ok && StillExpected(expected, expectedInode);
      ghost var checked := |moments|;
      if ok {
        Meddle(edit);
        ok := ReplaceChecked(checked, source, expected, expectedInode, marked);
      }
      SafeBeforeAndAfter(
        start.env, if edit.Some? then edit.value else start.env, expected, expectedInode, source, marked,
        moments, |known|, checked);
      if edit.None? && marked && start.env.payload == expected && start.env.inode == expectedInode && source != expected {
        CrashIsClassified(start.env, expected, expectedInode, source, moments[|known|..]);
        CrashIsClassified(start.env, expected, expectedInode, source, [disk]);
        assert disk in [disk];
      }
    }

    // The try block from the first check on, with its finally clause.
    method ReplaceChecked(ghost from: nat, source: string, expected: string, expectedInode: Inode, marked: bool)
      returns (ok: bool)
      requires disk.env == disk.envOnDisk && (marked ==> disk.marker && disk.markerOnDisk)
      requires from <= |moments| && AllSafe(disk.env, expected, expectedInode, source, marked, moments[from..])
      modifies this
      ensures old(moments) <= moments && clock > old(clock)
      ensures AllSafe(old(disk).env, expected, expectedInode, source, marked, moments[from..])
      ensures Safe(old(disk).env, expected, expectedInode, source, marked, disk)
      ensures ok ==>
                && disk.env == disk.envOnDisk && disk.env.payload == source && disk.env.synced
                && disk.env.inode != expectedInode && disk.nextStat == Some(disk.env.inode)
                && (marked ==> disk.marker && disk.markerOnDisk)
      ensures ok <==>
                && WorkedSince(old(clock)) && inodes(old(clock)) != expectedInode && old(disk).nextStat.None?
                && old(disk).env.payload == expected && old(disk).env.inode == expectedInode
      ensures WorkedSince(old(clock)) ==> disk.temporary.None?
      ensures !(old(disk).env.payload == expected && old(disk).env.inode == expectedInode) ==>
                disk.env == disk.envOnDisk == old(disk).env
    {
      ghost var found := disk.env;
      ok := PutInPlace(from, source, expected, expectedInode, marked);
      ghost var placed, before := disk, moments;
      // The finally clause.
      if disk.temporary.Some? {
        var _ := Do(disk.(temporary := None));
        SameEnvIsSafe(found, expected, expectedInode, source, marked, placed, disk);
        MoreSafe(found, expected, expectedInode, source, marked, before, moments, from);
      }
    }

    // The new file written, the second check, the rename and the record.
    method PutInPlace(ghost from: nat, source: string, expected: string, expectedInode: Inode, marked: bool)
      returns (ok: bool)
      requires disk.env == disk.envOnDisk && (marked ==> disk.marker && disk.markerOnDisk)
      requires from <= |moments| && AllSafe(disk.env, expected, expectedInode, source, marked, moments[from..])
      modifies this
      ensures old(moments) <= moments && clock > old(clock)
      ensures AllSafe(old(disk).env, expected, expectedInode, source, marked, moments[from..])
      ensures Safe(old(disk).env, expected, expectedInode, source, marked, disk)
      ensures ok ==>
                && disk.env == disk.envOnDisk && disk.env.payload == source && disk.env.synced
                && disk.env.inode != expectedInode && disk.nextStat == Some(disk.env.inode)
                && (marked ==> disk.marker && disk.markerOnDisk)
      ensures ok <==>
                && WorkedSince(old(clock)) && inodes(old(clock)) != expectedInode && old(disk).nextStat.None?
                && old(disk).env.payload == expected && old(disk).env.inode == expectedInode
      ensures ok ==> disk.temporary.None?
      ensures !(old(disk).env.payload == expected && old(disk).env.inode == expectedInode) ==>
                disk.env == disk.envOnDisk == old(disk).env
    {
      ghost var found, before := disk.env, moments;
      ok := WriteTemporary(source);
      UntouchedIsSafe(found, expected, expectedInode, source, marked, disk);
      UntouchedMoments(found, expected, expectedInode, source, marked, moments, |before|);
      MoreSafe(found, expected, expectedInode, source, marked, before, moments, from);
      if !ok || disk.temporary.value.inode == expectedInode || !StillExpected(expected, expectedInode) {
        return false;
      }
      ghost var written, earlier := disk, moments;
      ok := Rename();
      RenamedIsSafe(expected, expectedInode, source, marked, written, disk);
      forall k | |earlier| <= k < |moments| ensures Safe(found, expected, expectedInode, source, marked, moments[k]) {
        RenamedIsSafe(expected, expectedInode, source, marked, written, moments[k]);
      }
      MoreSafe(found, expected, expectedInode, source, marked, earlier, moments, from);
      // The record is created exclusively.
      if ok && disk.nextStat.Some? {
        return false;
      }
      if ok {
        ghost var renamed, after := disk, moments;
        ok := Do(disk.(nextStat := Some(disk.env.inode)));
        SameEnvIsSafe(found, expected, expectedInode, source, marked, renamed, disk);
        MoreSafe(found, expected, expectedInode, source, marked, after, moments, from);
      }
    }
  }

  // Safe relative to what was found first, and from the check on to what another process put there.
  lemma SafeBeforeAndAfter(
    first: File, second: File, expected: string, expectedInode: Inode, source: string, marked: bool,
    moments: seq<Disk>, from: nat, checked: nat)
    requires from <= checked <= |moments|
    requires AllSafe(first, expected, expectedInode, source, marked, moments[from..checked])
    requires AllSafe(second, expected, expectedInode, source, marked, moments[checked..])
    ensures forall d :: d in moments[from..] ==>
              || Safe(first, expected, expectedInode, source, marked, d)
              || Safe(second, expected, expectedInode, source, marked, d)
  {
    hide Safe;
    assert moments[from..] == moments[from..checked] + moments[checked..];
  }

  lemma UntouchedIsSafe(found: File, expected: string, expectedInode: Inode, source: string, marked: bool, d: Disk)
    requires d.env == d.envOnDisk == found
    ensures Safe(found, expected, expectedInode, source, marked, d)
  {
  }

  lemma UntouchedMoments(
    found: File, expected: string, expectedInode: Inode, source: string, marked: bool, moments: seq<Disk>, from: nat)
    requires from <= |moments|
    requires forall k :: from <= k < |moments| ==> moments[k].env == found && moments[k].envOnDisk == found
    ensures AllSafe(found, expected, expectedInode, source, marked, moments[from..])
  {
    forall d | d in moments[from..] ensures Safe(found, expected, expectedInode, source, marked, d) {
      var k :| 0 <= k < |moments[from..]| && moments[from..][k] == d;
      assert moments[from + k] == d;
    }
  }

  lemma SameEnvIsSafe(
    found: File, expected: string, expectedInode: Inode, source: string, marked: bool, d: Disk, next: Disk)
    requires Safe(found, expected, expectedInode, source, marked, d)
    requires next.env == d.env && next.envOnDisk == d.envOnDisk
    requires next.marker == d.marker && next.markerOnDisk == d.markerOnDisk
    ensures Safe(found, expected, expectedInode, source, marked, next)
  {
    assert forall f :: Survives(next, f) ==> Survives(d, f);
  }

  // The only moment that changes the path gives it a complete file, after the marker is on disk.
  lemma RenamedIsSafe(
    expected: string, expectedInode: Inode, source: string, marked: bool, before: Disk, d: Disk)
    requires before.env == before.envOnDisk && before.env.payload == expected && before.env.inode == expectedInode
    requires marked ==> before.marker && before.markerOnDisk
    requires Renamed(before, d) && before.temporary.value.payload == source && before.temporary.value.synced
    requires before.temporary.value.inode != expectedInode
    ensures Safe(before.env, expected, expectedInode, source, marked, d)
  {
  }

  lemma MoreSafe(
    found: File, expected: string, expectedInode: Inode, source: string, marked: bool,
    before: seq<Disk>, after: seq<Disk>, from: nat)
    requires from <= |before| && before <= after
    requires AllSafe(found, expected, expectedInode, source, marked, before[from..])
    requires forall k :: |before| <= k < |after| ==> Safe(found, expected, expectedInode, source, marked, after[k])
    ensures AllSafe(found, expected, expectedInode, source, marked, after[from..])
  {
    hide Safe;
    forall d | d in after[from..] ensures Safe(found, expected, expectedInode, source, marked, d) {
      var k :| 0 <= k < |after[from..]| && after[from..][k] == d;
      if from + k < |before| {
        assert before[from..][k] == d;
      } else {
        assert after[from + k] == d;
      }
    }
  }

  // The rename took effect or not, and so did the sync.
  predicate Renamed(before: Disk, after: Disk) {
    && before.temporary.Some?
    && (after.env == before.env || after.env == before.temporary.value)
    && (after.envOnDisk == before.envOnDisk || after.envOnDisk == before.temporary.value)
    && after.marker == before.marker && after.markerOnDisk == before.markerOnDisk
  }

  // In a marked forward replacement every safe moment is one a crash can be told from.
  lemma CrashIsClassified(found: File, original: string, originalInode: Inode, target: string, moments: seq<Disk>)
    requires found.payload == original && found.inode == originalInode && original != target
    requires AllSafe(found, original, originalInode, target, true, moments)
    ensures forall d :: d in moments ==> CrashTells(found, original, originalInode, target, d)
  {
    forall d | d in moments ensures CrashTells(found, original, originalInode, target, d) {
      assert Safe(found, original, originalInode, target, true, d);
    }
  }
}
