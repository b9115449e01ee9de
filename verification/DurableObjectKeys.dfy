/**
 * The key scheme of the durable adapter: a tag, a colon, and encoded parts.
 * Nothing is asked of the encoder but that it is injective and never yields
 * a colon.
 */
module DurableObjectKeys {
  import opened DurableTypes
  import opened StorageKeys

  ghost predicate EncoderOk(enc: string -> string) {
    && (forall a, b :: enc(a) == enc(b) ==> a == b)
    && (forall a :: ':' !in enc(a))
  }

  datatype Key =
    | RequestKey(id: RequestId)
    | MappingKey(key: IdempotencyKey)
    | AttemptsKey(id: RequestId)
    | LeaseKey(id: RequestId)
    | LeaseIndexKey(lease: LeaseId)
    | CheckpointKey(id: RequestId, segment: nat)
    | ResultKey(id: RequestId)
    | CancellationKey(id: RequestId)
    | RecoveryKey(id: RequestId)
    | CursorKey(id: RequestId)
    | WorkerKey(worker: WorkerId)

  function Tag(k: Key): (t: string)
    ensures ':' !in t
  {
    match k
    case RequestKey(_) => "request"
    case MappingKey(_) => "idempotency"
    case AttemptsKey(_) => "attempts"
    case LeaseKey(_) => "lease"
    case LeaseIndexKey(_) => "lease-index"
    case CheckpointKey(_, _) => "checkpoint"
    case ResultKey(_) => "result"
    case CancellationKey(_) => "cancellation"
    case RecoveryKey(_) => "recovery"
    case CursorKey(_) => "cursor"
    case WorkerKey(_) => "worker"
  }

  function Body(enc: string -> string, k: Key): string {
    match k
    case RequestKey(id) => enc(id)
    case MappingKey(key) => enc(key)
    case AttemptsKey(id) => enc(id)
    case LeaseKey(id) => enc(id)
    case LeaseIndexKey(lease) => enc(lease)
    case CheckpointKey(id, segment) => enc(id) + ":" + Decimal(segment)
    case ResultKey(id) => enc(id)
    case CancellationKey(id) => enc(id)
    case RecoveryKey(id) => enc(id)
    case CursorKey(id) => enc(id)
    case WorkerKey(worker) => enc(worker)
  }

  function Render(enc: string -> string, k: Key): string { Tag(k) + ":" + Body(enc, k) }

  predicate SameKind(a: Key, b: Key) {
    match a
    case RequestKey(_) => b.RequestKey?
    case MappingKey(_) => b.MappingKey?
    case AttemptsKey(_) => b.AttemptsKey?
    case LeaseKey(_) => b.LeaseKey?
    case LeaseIndexKey(_) => b.LeaseIndexKey?
    case CheckpointKey(_, _) => b.CheckpointKey?
    case ResultKey(_) => b.ResultKey?
    case CancellationKey(_) => b.CancellationKey?
    case RecoveryKey(_) => b.RecoveryKey?
    case CursorKey(_) => b.CursorKey?
    case WorkerKey(_) => b.WorkerKey?
  }

  lemma TagsAreDistinct(a: Key, b: Key)
    requires Tag(a) == Tag(b)
    ensures SameKind(a, b)
  {
    assert |Tag(a)| == |Tag(b)| && Tag(a)[0] == Tag(b)[0];
  }

  lemma BodiesAreInjective(enc: string -> string, a: Key, b: Key)
    requires EncoderOk(enc) && SameKind(a, b) && Body(enc, a) == Body(enc, b)
    ensures a == b
  {
    if a.CheckpointKey? {
      FirstPartSplits(enc(a.id), enc(b.id), Decimal(a.segment), Decimal(b.segment));
      DecimalIsInjective(a.segment, b.segment);
    }
  }

  /** Different keys have different names. */
  lemma RenderIsInjective(enc: string -> string, a: Key, b: Key)
    requires EncoderOk(enc) && Render(enc, a) == Render(enc, b)
    ensures a == b
  {
    FirstPartSplits(Tag(a), Tag(b), Body(enc, a), Body(enc, b));
    TagsAreDistinct(a, b);
    BodiesAreInjective(enc, a, b);
  }

  /** The prefix of a whole kind of keys, and of one request's checkpoints. */
  function KindPrefix(k: Key): string { Tag(k) + ":" }

  function CheckpointPrefix(enc: string -> string, id: RequestId): string { "checkpoint:" + enc(id) + ":" }

  lemma PrefixSplits(p: string, s: string)
    requires p <= s
    ensures s == p + s[|p|..]
  {}

  /** A kind's prefix selects exactly the keys of that kind: `lease:` never lists `lease-index:`. */
  lemma KindPrefixIsExact(enc: string -> string, kind: Key, k: Key)
    ensures KindPrefix(kind) <= Render(enc, k) <==> SameKind(kind, k)
  {
    if KindPrefix(kind) <= Render(enc, k) {
      var rest := Render(enc, k)[|KindPrefix(kind)|..];
      PrefixSplits(KindPrefix(kind), Render(enc, k));
      FirstPartSplits(Tag(k), Tag(kind), Body(enc, k), rest);
      TagsAreDistinct(kind, k);
    }
    if SameKind(kind, k) {
      assert Tag(kind) == Tag(k);
      assert Render(enc, k) == KindPrefix(kind) + Body(enc, k);
    }
  }

  lemma SelectedIsOwn(enc: string -> string, id: RequestId, k: Key, rest: string)
    requires EncoderOk(enc) && CheckpointPrefix(enc, id) <= Render(enc, k)
    requires rest == Render(enc, k)[|CheckpointPrefix(enc, id)|..]
    ensures k.CheckpointKey? && k.id == id
  {
    hide Decimal, EncoderOk, Tag;
    PrefixSplits(CheckpointPrefix(enc, id), Render(enc, k));
    assert Render(enc, k) == "checkpoint" + ":" + (enc(id) + ":" + rest);
    TagSplits(enc, k, enc(id) + ":" + rest);
    PartsSplit(enc, k, id, rest);
  }

  lemma TagSplits(enc: string -> string, k: Key, body: string)
    requires Tag(k) + ":" + Body(enc, k) == "checkpoint" + ":" + body
    ensures k.CheckpointKey? && Body(enc, k) == body
  {
    hide Body;
    FirstPartSplits(Tag(k), "checkpoint", Body(enc, k), body);
    TagsAreDistinct(k, CheckpointKey("", 0));
  }

  lemma PartsSplit(enc: string -> string, k: Key, id: RequestId, rest: string)
    requires EncoderOk(enc) && k.CheckpointKey?
    requires enc(k.id) + ":" + Decimal(k.segment) == enc(id) + ":" + rest
    ensures k.id == id
  {
    hide Decimal;
    FirstPartSplits(enc(k.id), enc(id), Decimal(k.segment), rest);
  }

  lemma OwnIsSelected(enc: string -> string, id: RequestId, segment: nat)
    ensures CheckpointPrefix(enc, id) <= Render(enc, CheckpointKey(id, segment))
  {
    hide Decimal;
    assert Render(enc, CheckpointKey(id, segment)) == CheckpointPrefix(enc, id) + Decimal(segment);
  }

  /** A request's checkpoint prefix selects exactly that request's checkpoints. */
  lemma CheckpointPrefixIsExact(enc: string -> string, id: RequestId, k: Key)
    requires EncoderOk(enc)
    ensures CheckpointPrefix(enc, id) <= Render(enc, k) <==> k.CheckpointKey? && k.id == id
  {
    hide Render, CheckpointPrefix, Decimal;
    if CheckpointPrefix(enc, id) <= Render(enc, k) {
      SelectedIsOwn(enc, id, k, Render(enc, k)[|CheckpointPrefix(enc, id)|..]);
    }
    if k.CheckpointKey? && k.id == id {
      OwnIsSelected(enc, id, k.segment);
    }
  }
}
