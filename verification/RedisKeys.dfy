/** The builders of the session keys in Redis, and which keys can collide. */
module RedisKeys {
  import opened Text

  // ---- Repository names ----

  /** repo.replace("/", "--"). */
  function SanitizeRepoKey(repo: string): string {
    if repo == "" then ""
    else SanitizeRepoKey(repo[..|repo| - 1]) + if repo[|repo| - 1] == '/' then "--" else [repo[|repo| - 1]]
  }

  predicate Free(c: char, s: string) { forall i :: 0 <= i < |s| ==> s[i] != c }

  /** Where the first double dash starts; the length if there is none. */
  function FirstDashes(s: string): (p: nat)
    ensures p <= |s| && (p < |s| ==> p + 1 < |s| && s[p] == s[p + 1] == '-')
    ensures forall i :: 0 <= i < p && i + 1 < |s| ==> !(s[i] == s[i + 1] == '-')
  {
    if |s| < 2 then |s|
    else if s[0] == '-' && s[1] == '-' then 0
    else 1 + FirstDashes(s[1..])
  }

  /** The repository that a sanitized key is read as: the first double dash is the slash. */
  function Restore(key: string): string {
    var p := FirstDashes(key);
    if p < |key| then key[..p] + "/" + key[p + 2..] else key
  }

  /** No double dash in the owner's name, and no dash at its end. */
  predicate PlainOwner(owner: string) {
    (forall i :: 0 <= i && i + 1 < |owner| ==> !(owner[i] == owner[i + 1] == '-'))
    && (owner != "" ==> owner[|owner| - 1] != '-')
  }

  lemma {:induction false} SanitizeAdd(a: string, b: string)
    ensures SanitizeRepoKey(a + b) == SanitizeRepoKey(a) + SanitizeRepoKey(b)
  {
    if b == "" {
      assert a + b == a;
    } else {
      SanitizeAdd(a, b[..|b| - 1]);
      assert (a + b)[..|a + b| - 1] == a + b[..|b| - 1];
    }
  }

  lemma {:induction false} SanitizeKeeps(s: string)
    requires Free('/', s)
    ensures SanitizeRepoKey(s) == s
  {
    if s != "" {
      SanitizeKeeps(s[..|s| - 1]);
      assert s == s[..|s| - 1] + [s[|s| - 1]];
    }
  }

  lemma SanitizeSlash(owner: string, name: string)
    requires Free('/', owner) && Free('/', name)
    ensures SanitizeRepoKey(owner + "/" + name) == owner + "--" + name
  {
    SanitizeAdd(owner + "/", name);
    SanitizeAdd(owner, "/");
    SanitizeKeeps(owner);
    SanitizeKeeps(name);
    assert "/"[..0] == "";
  }

  /** Every key is the key of the repository it is read as, and that is the one it was made from exactly
      when the owner is plain: other owners share their key with a different repository. */
  lemma RestoreIffPlainOwner(owner: string, name: string)
    requires Free('/', owner) && Free('/', name)
    ensures var repo := owner + "/" + name;
      && SanitizeRepoKey(Restore(SanitizeRepoKey(repo))) == SanitizeRepoKey(repo)
      && (Restore(SanitizeRepoKey(repo)) == repo <==> PlainOwner(owner))
  {
    hide SanitizeRepoKey;
    var key := owner + "--" + name;
    SanitizeSlash(owner, name);
    FirstDashesAt(owner, name);
    var p := FirstDashes(key);
    assert key == key[..p] + "--" + key[p + 2..] && Free('/', key[..p]) && Free('/', key[p + 2..]) by {
      assert forall i :: 0 <= i < |key| ==> key[i] != '/';
    }
    SanitizeSlash(key[..p], key[p + 2..]);
    hide FirstDashes, PlainOwner;
    if p < |owner| {
      assert Restore(key)[p] == '/' && (owner + "/" + name)[p] == owner[p];
    } else {
      assert key[..p] == owner && key[p + 2..] == name;
    }
  }

  /** The first double dash of a key is the one put for the slash exactly when the owner is plain. */
  lemma FirstDashesAt(owner: string, name: string)
    ensures FirstDashes(owner + "--" + name) <= |owner|
    ensures FirstDashes(owner + "--" + name) == |owner| <==> PlainOwner(owner)
  {
    var key := owner + "--" + name;
    var p := FirstDashes(key);
    hide FirstDashes;
    assert key[|owner|] == key[|owner| + 1] == '-';
    assert forall i :: 0 <= i < |owner| ==> key[i] == owner[i];
    assert p + 1 < |owner| ==> owner[p] == owner[p + 1] == '-';
    if !PlainOwner(owner) {
      var i := DashesIn(owner);
      assert key[i] == key[i + 1] == '-';
    }
  }

  lemma DashesIn(owner: string) returns (i: nat)
    requires !PlainOwner(owner)
    ensures i < |owner| && (owner + "--")[i] == (owner + "--")[i + 1] == '-'
  {
    if owner != "" && owner[|owner| - 1] == '-' {
      i := |owner| - 1;
    } else {
      i :| 0 <= i && i + 1 < |owner| && owner[i] == owner[i + 1] == '-';
    }
  }

  // ---- The builders ----

  function StreamingSessionKey(token: string): string { "session:stream:" + token }
  function StreamingJobKey(token: string): string { "session:stream:job:" + token }
  function InboxKey(token: string): string { "session:inbox:" + token }
  function SubscribersKey(token: string): string { "session:subscribers:" + token }
  function HistoryKey(token: string): string { "session:history:" + token }

  function StreamingLookupKey(repo: string, threadId: string, workflow: string, threadType: string): string {
    var safeRepo := SanitizeRepoKey(repo);
    "session:stream:lookup:"
    + if threadType != "" then safeRepo + ":" + threadType + ":" + threadId + ":" + workflow
      else safeRepo + ":" + threadId + ":" + workflow
  }

  function SessionKey(repo: string, threadType: string, threadId: string, workflow: string): string {
    "session:map:" + SanitizeRepoKey(repo) + ":" + threadType + ":" + threadId + ":" + workflow
  }

  /** What a key stands for. */
  datatype Key =
    | Session(token: string)
    | Job(token: string)
    | Inbox(token: string)
    | Subscribers(token: string)
    | History(token: string)
    | Lookup(repo: string, threadId: string, workflow: string, threadType: string)
    | Map(repo: string, threadId: string, workflow: string, threadType: string)

  function Render(k: Key): string {
    match k
    case Session(token) => StreamingSessionKey(token)
    case Job(token) => StreamingJobKey(token)
    case Inbox(token) => InboxKey(token)
    case Subscribers(token) => SubscribersKey(token)
    case History(token) => HistoryKey(token)
    case Lookup(repo, id, workflow, threadType) => StreamingLookupKey(repo, id, workflow, threadType)
    case Map(repo, id, workflow, threadType) => SessionKey(repo, threadType, id, workflow)
  }

  // ---- Colons ----

  /** key.split(":"). */
  function Fields(key: string): (fs: seq<string>)
    ensures fs != []
  {
    Split(':', key)
  }

  /** key.count(":"). */
  function Colons(key: string): nat {
    if key == "" then 0 else Colons(key[..|key| - 1]) + if key[|key| - 1] == ':' then 1 else 0
  }

  lemma {:induction false} FieldsAdd(a: string, b: string)
    ensures Fields(a + ":" + b) == Fields(a) + Fields(b)
  {
    hide Split, Grow;
    if b == "" {
      SplitSnoc(':', a, ':');
      GrowBySeparator(':', Fields(a));
      SplitNothing(':');
      assert a + ":" + b == a + [':'];
    } else {
      var front, c := b[..|b| - 1], b[|b| - 1];
      FieldsAdd(a, front);
      assert b == front + [c] && a + ":" + b == a + ":" + front + [c];
      SplitSnoc(':', a + ":" + front, c);
      SplitSnoc(':', front, c);
      GrowAdd(':', Fields(a), Fields(front), c);
    }
  }

  lemma {:induction false} OneField(s: string)
    requires Free(':', s)
    ensures Fields(s) == [s]
  {
    if s == "" {
      SplitNothing(':');
    } else {
      hide Split, Grow;
      var front, c := s[..|s| - 1], s[|s| - 1];
      OneField(front);
      assert s == front + [c];
      SplitSnoc(':', front, c);
      GrowLast(':', [front], c);
    }
  }

  lemma FieldThen(a: string, b: string)
    requires Free(':', a)
    ensures Fields(a + ":" + b) == [a] + Fields(b)
  {
    FieldsAdd(a, b);
    OneField(a);
  }

  lemma {:induction false} ColonsCountFields(s: string)
    ensures |Fields(s)| == Colons(s) + 1
  {
    if s != "" { ColonsCountFields(s[..|s| - 1]); }
  }

  // ---- Keys do not collide ----

  /** owner/name with a plain owner. */
  ghost predicate PlainRepo(repo: string) {
    exists cut :: 0 <= cut < |repo| && repo[cut] == '/'
      && Free('/', repo[..cut]) && Free('/', repo[cut + 1..]) && PlainOwner(repo[..cut])
  }

  ghost predicate WellFormed(k: Key) {
    match k
    case Lookup(repo, id, workflow, threadType) =>
      PlainRepo(repo) && Free(':', repo) && Free(':', id) && Free(':', workflow) && Free(':', threadType)
    case Map(repo, id, workflow, threadType) =>
      PlainRepo(repo) && Free(':', repo) && Free(':', id) && Free(':', workflow) && Free(':', threadType)
    case _ => Free(':', k.token)
  }

  function FieldsOf(k: Key): seq<string> {
    match k
    case Session(token) => ["session", "stream", token]
    case Job(token) => ["session", "stream", "job", token]
    case Inbox(token) => ["session", "inbox", token]
    case Subscribers(token) => ["session", "subscribers", token]
    case History(token) => ["session", "history", token]
    case Lookup(repo, id, workflow, threadType) =>
      ["session", "stream", "lookup", SanitizeRepoKey(repo)]
      + (if threadType != "" then [threadType] else []) + [id, workflow]
    case Map(repo, id, workflow, threadType) => ["session", "map", SanitizeRepoKey(repo), threadType, id, workflow]
  }

  lemma {:induction false} SanitizeAddsNoColon(s: string)
    requires Free(':', s)
    ensures Free(':', SanitizeRepoKey(s))
  {
    if s != "" { SanitizeAddsNoColon(s[..|s| - 1]); }
  }

  lemma TwoFields(a: string, b: string, rest: string)
    requires Free(':', a) && Free(':', b)
    ensures Fields(a + ":" + b + ":" + rest) == [a, b] + Fields(rest)
  {
    hide Fields, Free;
    FieldThen(a, b + ":" + rest);
    FieldThen(b, rest);
    assert a + ":" + b + ":" + rest == a + ":" + (b + ":" + rest);
  }

  lemma TailFields(repo: string, threadType: string, id: string, workflow: string)
    requires Free(':', repo) && Free(':', id) && Free(':', workflow) && Free(':', threadType)
    ensures Fields(repo + ":" + threadType + ":" + id + ":" + workflow) == [repo, threadType, id, workflow]
    ensures Fields(repo + ":" + id + ":" + workflow) == [repo, id, workflow]
  {
    hide Fields, Free;
    TwoFields(repo, threadType, id + ":" + workflow);
    FieldThen(id, workflow);
    OneField(workflow);
    TwoFields(repo, id, workflow);
    assert repo + ":" + threadType + ":" + id + ":" + workflow == repo + ":" + threadType + ":" + (id + ":" + workflow);
  }

  lemma FieldsOfRender(k: Key)
    requires WellFormed(k)
    ensures Fields(Render(k)) == FieldsOf(k)
  {
    hide Fields;
    match k
    case Session(token) => ThreeFields("session", "stream", token); assert Render(k) == "session" + ":" + "stream" + ":" + token;
    case Inbox(token) => ThreeFields("session", "inbox", token); assert Render(k) == "session" + ":" + "inbox" + ":" + token;
    case Subscribers(token) => SubscribersFields(k);
    case History(token) => ThreeFields("session", "history", token); assert Render(k) == "session" + ":" + "history" + ":" + token;
    case Job(token) => JobFields(k);
    case Lookup(repo, id, workflow, threadType) => LookupFields(k);
    case Map(repo, id, workflow, threadType) => MapFields(k);
  }

  lemma ThreeFields(a: string, b: string, c: string)
    requires Free(':', a) && Free(':', b) && Free(':', c)
    ensures Fields(a + ":" + b + ":" + c) == [a, b, c]
  {
    OneField(c);
    TwoFields(a, b, c);
  }

  lemma SubscribersFields(k: Key)
    requires k.Subscribers? && WellFormed(k)
    ensures Fields(Render(k)) == FieldsOf(k)
  {
    hide Fields;
    ThreeFields("session", "subscribers", k.token);
    assert Render(k) == "session" + ":" + "subscribers" + ":" + k.token;
  }

  lemma JobFields(k: Key)
    requires k.Job? && WellFormed(k)
    ensures Fields(Render(k)) == FieldsOf(k)
  {
    hide Fields;
    OneField(k.token);
    FieldThen("job", k.token);
    TwoFields("session", "stream", "job" + ":" + k.token);
    assert Render(k) == "session" + ":" + "stream" + ":" + ("job" + ":" + k.token);
  }

  lemma MapFields(k: Key)
    requires k.Map? && WellFormed(k)
    ensures Fields(Render(k)) == FieldsOf(k)
  {
    hide Fields;
    var safe := SanitizeRepoKey(k.repo);
    SanitizeAddsNoColon(k.repo);
    TailFields(safe, k.threadType, k.threadId, k.workflow);
    var tail := safe + ":" + k.threadType + ":" + k.threadId + ":" + k.workflow;
    TwoFields("session", "map", tail);
    assert Render(k) == "session" + ":" + "map" + ":" + tail;
  }

  lemma PlainWords()
    ensures Free(':', "lookup") && Free(':', "session") && Free(':', "stream")
  {
  }

  lemma LookupFields(k: Key)
    requires k.Lookup? && WellFormed(k)
    ensures Fields(Render(k)) == FieldsOf(k)
  {
    hide Fields, SanitizeRepoKey, Free;
    var safe := SanitizeRepoKey(k.repo);
    SanitizeAddsNoColon(k.repo);
    TailFields(safe, k.threadType, k.threadId, k.workflow);
    PlainWords();
    var tail := if k.threadType != "" then safe + ":" + k.threadType + ":" + k.threadId + ":" + k.workflow
                else safe + ":" + k.threadId + ":" + k.workflow;
    FieldThen("lookup", tail);
    TwoFields("session", "stream", "lookup" + ":" + tail);
    assert Render(k) == "session" + ":" + "stream" + ":" + ("lookup" + ":" + tail);
  }

  lemma PlainReposDiffer(a: string, b: string)
    requires PlainRepo(a) && PlainRepo(b) && SanitizeRepoKey(a) == SanitizeRepoKey(b)
    ensures a == b
  {
    PlainRestores(a);
    PlainRestores(b);
  }

  lemma PlainRestores(a: string)
    requires PlainRepo(a)
    ensures Restore(SanitizeRepoKey(a)) == a
  {
    hide SanitizeRepoKey, Restore, Free, PlainOwner;
    var cut :| 0 <= cut < |a| && a[cut] == '/'
      && Free('/', a[..cut]) && Free('/', a[cut + 1..]) && PlainOwner(a[..cut]);
    RestoreIffPlainOwner(a[..cut], a[cut + 1..]);
    assert a == a[..cut] + "/" + a[cut + 1..];
  }

  /** Two well-formed keys of any kinds are the same string only if they stand for the same thing. */
  lemma KeysAreInjective(a: Key, b: Key)
    requires WellFormed(a) && WellFormed(b) && Render(a) == Render(b)
    ensures a == b
  {
    FieldsOfRender(a);
    FieldsOfRender(b);
    hide Fields, Render, SanitizeRepoKey;
    var x, y := FieldsOf(a), FieldsOf(b);
    assert x == y && |x| == |y| && x[1] == y[1] && x[2] == y[2];
    SameKind(a, b);
    if a.Lookup? || a.Map? {
      SameLast(a, b);
      PlainReposDiffer(a.repo, b.repo);
    }
  }

  lemma SameKind(a: Key, b: Key)
    requires FieldsOf(a) == FieldsOf(b)
    ensures (a.Session? <==> b.Session?) && (a.Job? <==> b.Job?) && (a.Inbox? <==> b.Inbox?)
    ensures (a.Subscribers? <==> b.Subscribers?) && (a.History? <==> b.History?)
    ensures (a.Lookup? <==> b.Lookup?) && (a.Map? <==> b.Map?)
    ensures !a.Lookup? && !a.Map? ==> a == b
  {
    var x, y := FieldsOf(a), FieldsOf(b);
    assert |x| == |y| && x[1] == y[1] && x[2] == y[2];
    assert a.Job? ==> x[3] == y[3];
  }

  lemma SameLast(a: Key, b: Key)
    requires FieldsOf(a) == FieldsOf(b) && ((a.Lookup? && b.Lookup?) || (a.Map? && b.Map?))
    ensures SanitizeRepoKey(a.repo) == SanitizeRepoKey(b.repo)
    ensures a.threadType == b.threadType && a.threadId == b.threadId && a.workflow == b.workflow
  {
    var x, y := FieldsOf(a), FieldsOf(b);
    var n := |x|;
    assert n == |y| && x[2] == y[2] && x[3] == y[3] && x[4] == y[4] && x[n - 1] == y[n - 1] && x[n - 2] == y[n - 2];
  }

  // ---- The sweep's scan ----

  /** The sweep takes a key that SCAN MATCH session:stream:* returns when it has two colons. */
  predicate ScanAccepts(key: string) { "session:stream:" <= key && Colons(key) == 2 }

  /** key.rsplit(":", 1)[-1]. */
  function LastField(key: string): string { Fields(key)[|Fields(key)| - 1] }

  lemma ScanAcceptsIff(token: string)
    ensures ScanAccepts(StreamingSessionKey(token)) <==> Free(':', token)
    ensures Free(':', token) ==> LastField(StreamingSessionKey(token)) == token
  {
    hide Fields, Colons, Free;
    var key := StreamingSessionKey(token);
    PlainWords();
    assert key == "session" + ":" + "stream" + ":" + token;
    TwoFields("session", "stream", token);
    ColonsCountFields(key);
    ColonsCountFields(token);
    NoColons(token);
    if Free(':', token) { OneField(token); }
  }

  /** The scan takes exactly the keys of session hashes, and reads the token from them. */
  lemma ScanTakesSessionKeys(key: string)
    ensures ScanAccepts(key) <==> exists token :: Free(':', token) && key == StreamingSessionKey(token)
    ensures ScanAccepts(key) ==> Free(':', LastField(key)) && key == StreamingSessionKey(LastField(key))
  {
    hide Fields, Colons;
    if "session:stream:" <= key {
      ScanAcceptsIff(key[|"session:stream:"|..]);
      assert key == StreamingSessionKey(key[|"session:stream:"|..]);
    }
    forall token | Free(':', token) && key == StreamingSessionKey(token) ensures ScanAccepts(key) {
      ScanAcceptsIff(token);
    }
  }

  /** In terms of what keys stand for: of the well-formed keys, the scan takes those of session hashes. */
  lemma ScanSeparatesKinds(k: Key)
    requires WellFormed(k)
    ensures ScanAccepts(Render(k)) <==> k.Session?
    ensures k.Session? ==> LastField(Render(k)) == k.token
  {
    var key := Render(k);
    ScanTakesSessionKeys(key);
    FieldsOfRender(k);
    if ScanAccepts(key) {
      KeysAreInjective(k, Session(LastField(key)));
    }
  }

  lemma {:induction false} NoColons(s: string)
    ensures Colons(s) == 0 <==> Free(':', s)
  {
    if s != "" {
      NoColons(s[..|s| - 1]);
      assert Free(':', s) <==> Free(':', s[..|s| - 1]) && s[|s| - 1] != ':';
    }
  }

  // ---- Why the parts must be plain ----

  /** A colon inside a part makes two sessions share a key, and an owner that is not plain two repositories. */
  lemma Collisions()
    ensures SessionKey("o/r", "a:b", "c", "d") == SessionKey("o/r", "a", "b:c", "d")
    ensures SanitizeRepoKey("a-/b") == SanitizeRepoKey("a/-b")
  {
    var safe := SanitizeRepoKey("o/r");
    assert "session:map:" + safe + ":" + "a:b" + ":" + "c" + ":" + "d" == "session:map:" + safe + ":" + "a" + ":" + "b:c" + ":" + "d";
    SanitizeSlash("a-", "b");
    SanitizeSlash("a", "-b");
    assert "a-" + "/" + "b" == "a-/b" && "a" + "/" + "-b" == "a/-b";
    assert "a-" + "--" + "b" == "a" + "--" + "-b";
  }

  /** One key of each kind. */
  lemma KeyExamples()
    ensures Render(Session("t")) == "session:stream:t" && Render(Job("t")) == "session:stream:job:t"
    ensures Render(Inbox("t")) == "session:inbox:t" && Render(Subscribers("t")) == "session:subscribers:t"
    ensures Render(History("t")) == "session:history:t"
    ensures Render(Lookup("o/r", "5", "w", "pr")) == "session:stream:lookup:o--r:pr:5:w"
    ensures Render(Lookup("o/r", "5", "w", "")) == "session:stream:lookup:o--r:5:w"
    ensures Render(Map("o/r", "5", "w", "pr")) == "session:map:o--r:pr:5:w"
  {
    OneNameKeys();
    LookupKeys();
    MapKey();
    hide Render;
  }

  lemma OneNameKeys()
    ensures Render(Session("t")) == "session:stream:t" && Render(Job("t")) == "session:stream:job:t"
    ensures Render(Inbox("t")) == "session:inbox:t" && Render(Subscribers("t")) == "session:subscribers:t"
    ensures Render(History("t")) == "session:history:t"
  {
  }

  lemma LookupKeys()
    ensures Render(Lookup("o/r", "5", "w", "pr")) == "session:stream:lookup:o--r:pr:5:w"
    ensures Render(Lookup("o/r", "5", "w", "")) == "session:stream:lookup:o--r:5:w"
  {
    SanitizeSlash("o", "r");
    assert "o" + "/" + "r" == "o/r" && "o" + "--" + "r" == "o--r";
    hide SanitizeRepoKey;
  }

  lemma MapKey()
    ensures Render(Map("o/r", "5", "w", "pr")) == "session:map:o--r:pr:5:w"
  {
    SanitizeSlash("o", "r");
    assert "o" + "/" + "r" == "o/r" && "o" + "--" + "r" == "o--r";
    hide SanitizeRepoKey;
  }
}
