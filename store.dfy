/**
 * The conversation store: one document per caller number in the `calls`
 * collection, each document holding append-only lists of conversation
 * entries under a field name ("conversation" for calls, "sms_conversation"
 * for text messages).
 */
module ChatStore {

  /** Field of a caller's document that holds the voice-call turns. */
  const CONVERSATION: string := "conversation"
  /** Field of a caller's document that holds the SMS turns. */
  const SMS_CONVERSATION: string := "sms_conversation"

  /** One stored turn: a small dictionary such as {caller, bot}, {user} or {bot}. */
  type Entry = map<string, string>

  /** A caller's document: list-valued fields by name. */
  type Document = map<string, seq<Entry>>

  /** The whole collection, keyed by caller number. */
  type Store = map<string, Document>

  /** `entry.get(key, "")`: the value under `key`, or the empty string. */
  function Lookup(entry: Entry, key: string): (v: string)
    ensures key in entry ==> v == entry[key]
    ensures key !in entry ==> v == ""
  {
    if key in entry then entry[key] else ""
  }

  /** The caller's document, or the empty document when there is none. */
  function DocumentOf(docs: Store, callerNumber: string): (doc: Document)
  {
    if callerNumber in docs then docs[callerNumber] else map[]
  }

  /**
   * get_chat_history: the list stored under `field` in the caller's
   * document; the empty list when the caller has no document or the
   * document lacks that field.
   */
  function ChatHistory(docs: Store, callerNumber: string, field: string): (h: seq<Entry>)
    ensures callerNumber !in docs ==> h == []
    ensures callerNumber in docs && field !in docs[callerNumber] ==> h == []
    ensures callerNumber in docs && field in docs[callerNumber] ==> h == docs[callerNumber][field]
  {
    var doc := DocumentOf(docs, callerNumber);
    if field in doc then doc[field] else []
  }

  /**
   * update_one({caller_number}, {"$push": {field: entry}}, upsert=True):
   * appends `entry` to the end of the caller's `field` list, creating the
   * document and the list when they are missing.
   */
  function PushUpsert(docs: Store, callerNumber: string, field: string, entry: Entry): (r: Store)
    ensures callerNumber in r
    ensures ChatHistory(r, callerNumber, field) == ChatHistory(docs, callerNumber, field) + [entry]
    ensures r[callerNumber] - {field} == DocumentOf(docs, callerNumber) - {field}
    ensures r - {callerNumber} == docs - {callerNumber}
  {
    var doc := DocumentOf(docs, callerNumber);
    docs[callerNumber := doc[field := ChatHistory(docs, callerNumber, field) + [entry]]]
  }

  /** The document holds at least one entry in some field. */
  ghost predicate HasEntry(doc: Document)
  {
    exists f :: f in doc && doc[f] != []
  }

  /** A document exists only for a caller for whom something has been appended. */
  ghost predicate RecordsOnlyByAppend(docs: Store)
  {
    forall c :: c in docs ==> HasEntry(docs[c])
  }

  /** An upsert keeps "a document exists only once something was appended for its caller". */
  lemma PushUpsertKeepsRecordsOnlyByAppend(docs: Store, callerNumber: string, field: string, entry: Entry)
    requires RecordsOnlyByAppend(docs)
    ensures RecordsOnlyByAppend(PushUpsert(docs, callerNumber, field, entry))
  {
  }

  /** The `calls` collection, whose documents the endpoints update in place. */
  class Collection {
    var docs: Store

    ghost predicate Valid()
      reads this
    {
      RecordsOnlyByAppend(docs)
    }

    /** A fresh, empty collection. */
    constructor ()
      ensures Valid() && docs == map[]
    {
      docs := map[];
    }

    /** update_one with a `$push` of `entry` onto `field` and upsert=True. */
    method UpdateOnePush(callerNumber: string, field: string, entry: Entry)
      requires Valid()
      modifies this
      ensures Valid()
      ensures docs == PushUpsert(old(docs), callerNumber, field, entry)
    {
      PushUpsertKeepsRecordsOnlyByAppend(docs, callerNumber, field, entry);
      docs := PushUpsert(docs, callerNumber, field, entry);
    }
  }
}
