/**
 The object-store keys of app/files/service.ts and app/processing/report_pipeline_processor.ts.
 The rest of the project uses structured keys; the lemmas here say that this loses nothing as
 long as the two ids hold no slash, which is true of UUIDs.
 */
module StorageKeys {
  datatype Extension = Txt | Vtt

  datatype StorageKey =
    | OriginalKey(userId: string, fileId: string, extension: Extension)
    | ReportKey(userId: string, fileId: string)
    | RawKey(userId: string, fileId: string)

  predicate SlashFree(k: StorageKey) {
    '/' !in k.userId && '/' !in k.fileId
  }

  function ObjectName(k: StorageKey): string {
    match k
    case OriginalKey(_, _, Txt) => "original.txt"
    case OriginalKey(_, _, Vtt) => "original.vtt"
    case ReportKey(_, _) => "report.json"
    case RawKey(_, _) => "raw_llm_output.json"
  }

  function KeyText(k: StorageKey): string {
    "users/" + (k.userId + "/" + ("files/" + (k.fileId + "/" + ObjectName(k))))
  }

  lemma Flatten(a: string, b: string, c: string, d: string, e: string, f: string, g: string)
    ensures a + (b + c + (d + (e + f + g))) == a + b + c + d + e + f + g
  {
  }

  /** The path of an object, part by part. */
  lemma KeyTextIs(k: StorageKey)
    ensures KeyText(k) ==
            "users/" + k.userId + "/" + "files/" + k.fileId + "/" +
            match k
            case OriginalKey(_, _, extension) => if extension == Txt then "original.txt" else "original.vtt"
            case ReportKey(_, _) => "report.json"
            case RawKey(_, _) => "raw_llm_output.json"
  {
    Flatten("users/", k.userId, "/", "files/", k.fileId, "/", ObjectName(k));
  }

  lemma SplitAtSlash(a: string, b: string, rest: string, rest': string)
    requires '/' !in a && '/' !in b
    requires a + "/" + rest == b + "/" + rest'
    ensures a == b && rest == rest'
  {
    var whole := a + "/" + rest;
    assert whole[|a|] == '/' && whole[|b|] == '/';
    assert forall i | 0 <= i < |a| :: whole[i] == a[i] && a[i] in a;
    assert forall i | 0 <= i < |b| :: whole[i] == b[i] && b[i] in b;
    assert a == whole[..|a|] && rest == whole[|a| + 1..];
    assert b == whole[..|b|] && rest' == whole[|b| + 1..];
  }

  /** Different keys have different texts, whatever they are keys of. */
  lemma KeyTextIsInjective(a: StorageKey, b: StorageKey)
    requires SlashFree(a) && SlashFree(b)
    ensures KeyText(a) == KeyText(b) <==> a == b
  {
    if KeyText(a) == KeyText(b) {
      var ta, tb := "files/" + (a.fileId + "/" + ObjectName(a)), "files/" + (b.fileId + "/" + ObjectName(b));
      assert KeyText(a)[6..] == a.userId + "/" + ta && KeyText(b)[6..] == b.userId + "/" + tb;
      SplitAtSlash(a.userId, b.userId, ta, tb);
      assert ta[6..] == a.fileId + "/" + ObjectName(a) && tb[6..] == b.fileId + "/" + ObjectName(b);
      SplitAtSlash(a.fileId, b.fileId, ObjectName(a), ObjectName(b));
      assert ObjectName(a)[|ObjectName(a)| - 1] == ObjectName(b)[|ObjectName(b)| - 1];
      assert ObjectName(a)[0] == ObjectName(b)[0] && |ObjectName(a)| == |ObjectName(b)|;
    }
  }

  /** With slashes in the ids two users can share a key. */
  lemma SlashesShareKeys()
    ensures KeyText(ReportKey("a/files/b", "c")) == KeyText(ReportKey("a", "b/files/c"))
  {
  }

  /** A store addressed by text holds the same objects as one addressed by structured keys. */
  ghost predicate SameObjects<Body>(structured: map<StorageKey, Body>, textual: map<string, Body>) {
    && (forall k | k in structured :: SlashFree(k) && KeyText(k) in textual && textual[KeyText(k)] == structured[k])
    && forall k | SlashFree(k) && KeyText(k) in textual :: k in structured
  }

  /** Putting and deleting by text is putting and deleting by structured key. */
  lemma OperationsAgree<Body>(structured: map<StorageKey, Body>,
      textual: map<string, Body>, key: StorageKey, body: Body)
    requires SameObjects(structured, textual) && SlashFree(key)
    ensures SameObjects(structured[key := body], textual[KeyText(key) := body])
    ensures SameObjects(structured - {key}, textual - {KeyText(key)})
    ensures key in structured <==> KeyText(key) in textual
  {
    forall k | SlashFree(k) ensures KeyText(k) == KeyText(key) <==> k == key {
      KeyTextIsInjective(k, key);
    }
  }
}
