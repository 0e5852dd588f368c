/**
  The per-object work of bin/s3-update-folder-owner.py (`process`, lines
  83-106): an ACL put through the worker's resource handle, then a self-copy
  with replaced metadata through the shared low-level client. The two remote
  calls are recorded as effects; whether the store accepts each call is an
  input (`Store`), since the store itself is not modelled.
*/
module Remediation {
  import opened Listing
  import opened HandleCache

  /** The canned ACL of line 86. */
  const BucketOwnerFullControl: string := "bucket-owner-full-control"

  /** The metadata directive of line 95. */
  const Replace: string := "REPLACE"

  /** A remote mutating call issued by the script. */
  datatype Effect =
    | /** `s3.ObjectAcl(bucket, key).put(ACL=acl)` on the worker's resource (lines 84-86). */
      PutObjectAcl(via: Handle, bucket: string, key: string, acl: string)
    | /** `s3c.copy_object(...)` on the shared client (lines 92-97). */
      CopyObject(bucket: string, key: string, copySource: string, metadataDirective: string)

  /**
    The store's answers: the keys whose ACL put it refuses and the keys whose
    copy it refuses (a refusal is raised as an exception in the script).
  */
  datatype Store = Store(aclRefused: set<string>, copyRefused: set<string>)

  /** How `process` ends for one object. */
  datatype Outcome =
    | /** Both calls succeeded; the "Entitled bucket owner" line is logged (line 104). */
      Entitled(key: string)
    | /** The ACL put raised; the copy is never issued. */
      AclRefused(key: string)
    | /** The ACL put succeeded and the copy raised. */
      CopyRefused(key: string)

  /** The calls one `process` invocation issued, in order, and how it ended. */
  datatype Step = Step(effects: seq<Effect>, outcome: Outcome)

  predicate Accepts(store: Store, key: string) {
    key !in store.aclRefused && key !in store.copyRefused
  }

  /** Line 96: the copy source is the bucket name, one delimiter, then the key. */
  function CopySource(bucket: string, key: string): (r: string)
    ensures |r| == |bucket| + 1 + |key|
    ensures r[..|bucket|] == bucket && r[|bucket|] == Delimiter && r[|bucket| + 1..] == key
  {
    bucket + [Delimiter] + key
  }

  /**
    Bucket names never contain the delimiter, so the copy source names exactly
    one object: equal copy sources mean the same bucket and the same key.
  */
  lemma CopySourceNamesOneObject(b1: string, k1: string, b2: string, k2: string)
    requires Delimiter !in b1 && Delimiter !in b2
    requires CopySource(b1, k1) == CopySource(b2, k2)
    ensures b1 == b2 && k1 == k2
  {
  }

  /**
    Every copy in a trace comes right after the bucket-owner-full-control ACL
    put on the same bucket and key.
  */
  predicate AclBeforeCopy(t: seq<Effect>) {
    forall j :: 0 <= j < |t| && t[j].CopyObject? ==>
      && 0 < j
      && t[j - 1].PutObjectAcl?
      && t[j - 1].bucket == t[j].bucket
      && t[j - 1].key == t[j].key
      && t[j - 1].acl == BucketOwnerFullControl
  }

  /** Traces that each keep the order keep it when run one after the other. */
  lemma AclBeforeCopyAppend(a: seq<Effect>, b: seq<Effect>)
    requires AclBeforeCopy(a) && AclBeforeCopy(b)
    ensures AclBeforeCopy(a + b)
  {
  }

  /**
    Lines 83-97 for one object, given the worker's handle: the ACL put is
    issued first; the copy of the object onto itself is issued only when the
    ACL put was accepted.
  */
  function Remediate(store: Store, bucket: string, h: Handle, obj: ObjectSummary): (s: Step)
    ensures 1 <= |s.effects| <= 2
    ensures s.effects[0] == PutObjectAcl(h, bucket, obj.key, BucketOwnerFullControl)
    ensures |s.effects| == 2 <==> obj.key !in store.aclRefused
    ensures |s.effects| == 2 ==> s.effects[1] == CopyObject(bucket, obj.key, CopySource(bucket, obj.key), Replace)
    ensures s.outcome.key == obj.key
    ensures s.outcome.Entitled? <==> Accepts(store, obj.key)
    ensures s.outcome.AclRefused? <==> obj.key in store.aclRefused
    ensures AclBeforeCopy(s.effects)
  {
    var key := obj.key;
    var acl := PutObjectAcl(h, bucket, key, BucketOwnerFullControl);
    if key in store.aclRefused then
      Step([acl], AclRefused(key))
    else
      var copy := CopyObject(bucket, key, CopySource(bucket, key), Replace);
      Step([acl, copy], if key in store.copyRefused then CopyRefused(key) else Entitled(key))
  }

  /** With a store that accepts the object, processing appends exactly the two calls, ACL first. */
  lemma RemediateAccepted(store: Store, bucket: string, h: Handle, obj: ObjectSummary)
    requires Accepts(store, obj.key)
    ensures Remediate(store, bucket, h, obj) == Step(
      [ PutObjectAcl(h, bucket, obj.key, BucketOwnerFullControl),
        CopyObject(bucket, obj.key, CopySource(bucket, obj.key), Replace) ],
      Entitled(obj.key))
  {
  }
}
