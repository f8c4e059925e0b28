/**
 Folding system messages into the first user message, in place: the messages sit in an array that the
 request shares with its caller, and a message's content is an array of its own that copies of the
 message share.
 */
module Fold {
  import opened Text
  import opened Places
  import opened Conversation

  // ---------- The fold on values ----------

  function NonEmptyTexts(content: seq<Part>): seq<string> {
    if |content| == 0 then [] else
    var p := content[|content| - 1];
    NonEmptyTexts(content[..|content| - 1]) + (if p.TextPart? && p.text != "" then [p.text] else [])
  }

  function SystemTexts(ms: seq<Message>): seq<string> {
    if |ms| == 0 then [] else
    var m := ms[|ms| - 1];
    SystemTexts(ms[..|ms| - 1]) + (if m.role == "system" then NonEmptyTexts(m.content) else [])
  }

  function NonSystem<M>(ms: seq<M>, role: M -> string): (r: seq<M>)
    ensures |r| <= |ms|
  {
    if |ms| == 0 then [] else
    var m := ms[|ms| - 1];
    NonSystem(ms[..|ms| - 1], role) + (if role(m) != "system" then [m] else [])
  }

  function RoleOf(m: Message): string {
    m.role
  }

  /** The place of the first user message, or the length of the list. */
  function FirstUser(ms: seq<Message>): (i: nat)
    ensures i <= |ms|
    ensures i < |ms| ==> ms[i].role == "user"
    ensures forall j :: 0 <= j < i ==> ms[j].role != "user"
  {
    if |ms| == 0 then 0 else
    var i := FirstUser(ms[..|ms| - 1]);
    if i < |ms| - 1 || ms[|ms| - 1].role == "user" then i else |ms|
  }

  function Prefixed(content: seq<Part>, prefix: string): seq<Part> {
    if |content| == 1 && content[0].TextPart? then [TextPart(prefix + "\n\n" + content[0].text)]
    else [TextPart(prefix)] + content
  }

  function Prefix(ms: seq<Message>): string {
    Join(SystemTexts(ms), "\n\n")
  }

  /** Nothing to fold, or no message to fold it into. */
  predicate Exits(ms: seq<Message>) {
    SystemTexts(ms) == [] || FirstUser(ms) == |ms|
  }

  function Folded(ms: seq<Message>): seq<Message> {
    if Exits(ms) then ms else
    var i := FirstUser(ms);
    NonSystem(ms[i := ms[i].(content := Prefixed(ms[i].content, Prefix(ms)))], RoleOf)
  }

  /** What stays in the array the messages were in: the kept messages, then whatever the array held there before. */
  function LeftBehind(ms: seq<Message>): seq<Message> {
    NonSystem(ms, RoleOf) + ms[|NonSystem(ms, RoleOf)|..]
  }

  // ---------- Properties of the fold on values ----------

  lemma {:induction false} NonSystemHasNone(ms: seq<Message>)
    ensures forall m :: m in NonSystem(ms, RoleOf) <==> m in ms && m.role != "system"
  {
    if |ms| == 0 {
    } else {
      NonSystemHasNone(ms[..|ms| - 1]);
      assert ms == ms[..|ms| - 1] + [ms[|ms| - 1]];
    }
  }

  lemma {:induction false} NoSystemNoTexts(ms: seq<Message>)
    requires forall m :: m in ms ==> m.role != "system"
    ensures SystemTexts(ms) == []
  {
    if |ms| == 0 {
    } else {
      assert ms[|ms| - 1] in ms;
      NoSystemNoTexts(ms[..|ms| - 1]);
    }
  }

  /** A second fold changes nothing. */
  lemma FoldedTwice(ms: seq<Message>)
    ensures Exits(Folded(ms)) && Folded(Folded(ms)) == Folded(ms)
  {
    if !Exits(ms) {
      var i := FirstUser(ms);
      var ns := ms[i := ms[i].(content := Prefixed(ms[i].content, Prefix(ms)))];
      NonSystemHasNone(ns);
      NoSystemNoTexts(Folded(ms));
    }
  }

  lemma {:induction false} JoinNonEmpty(parts: seq<string>, sep: string)
    requires parts != [] && forall p :: p in parts ==> p != ""
    ensures Join(parts, sep) != ""
  {
    assert parts[|parts| - 1] in parts;
  }

  lemma {:induction false} TextsNonEmpty(content: seq<Part>)
    ensures forall t :: t in NonEmptyTexts(content) ==> t != ""
  {
    if |content| == 0 {
    } else {
      TextsNonEmpty(content[..|content| - 1]);
    }
  }

  lemma {:induction false} SystemTextsNonEmpty(ms: seq<Message>)
    ensures forall t :: t in SystemTexts(ms) ==> t != ""
  {
    if |ms| == 0 {
    } else {
      SystemTextsNonEmpty(ms[..|ms| - 1]);
      TextsNonEmpty(ms[|ms| - 1].content);
    }
  }

  lemma PrefixedDiffers(content: seq<Part>, prefix: string)
    requires prefix != ""
    ensures Prefixed(content, prefix) != content
  {
    if |content| == 1 && content[0].TextPart? {
      assert |prefix + "\n\n" + content[0].text| > |content[0].text|;
    }
  }

  lemma {:induction false} NonSystemPrefix(ms: seq<Message>, j: nat)
    requires j <= |ms| && forall k :: 0 <= k < j ==> ms[k].role != "system"
    ensures |NonSystem(ms, RoleOf)| >= j && NonSystem(ms, RoleOf)[..j] == ms[..j]
  {
    if |ms| > j {
      NonSystemPrefix(ms[..|ms| - 1], j);
      assert ms[..|ms| - 1][..j] == ms[..j];
    } else if |ms| > 0 {
      NonSystemPrefix(ms[..|ms| - 1], j - 1);
      assert ms == ms[..|ms| - 1] + [ms[|ms| - 1]];
    }
  }

  lemma {:induction false} NonSystemLonger(ms: seq<Message>, j: nat, i: nat)
    requires j < i < |ms| && ms[i].role != "system" && forall k :: 0 <= k < j ==> ms[k].role != "system"
    ensures |NonSystem(ms, RoleOf)| > j
  {
    if i < |ms| - 1 {
      NonSystemLonger(ms[..|ms| - 1], j, i);
    } else {
      NonSystemPrefix(ms[..|ms| - 1], j);
    }
  }

  function FirstSystem(ms: seq<Message>): (j: nat)
    ensures j <= |ms|
    ensures j < |ms| ==> ms[j].role == "system"
    ensures forall k :: 0 <= k < j ==> ms[k].role != "system"
  {
    if |ms| == 0 then 0 else
    var j := FirstSystem(ms[..|ms| - 1]);
    if j < |ms| - 1 || ms[|ms| - 1].role == "system" then j else |ms|
  }

  /**
   Whenever a fold goes through, what it leaves in the caller's array differs from what was there; the
   other messages may or may not have seen the content change with the first user message.
   */
  lemma FoldIsVisible(before: seq<Message>, after: seq<Message>)
    requires |after| == |before| && !Exits(before)
    requires forall k :: 0 <= k < |before| ==> after[k].role == before[k].role
    requires after[FirstUser(before)].content == Prefixed(before[FirstUser(before)].content, Prefix(before))
    ensures LeftBehind(after) != before
  {
    hide SystemTexts, Join, Prefixed;
    var i, j := FirstUser(before), FirstSystem(before);
    SystemTextsNonEmpty(before);
    JoinNonEmpty(SystemTexts(before), "\n\n");
    PrefixedDiffers(before[i].content, Prefix(before));
    if j < i {
      NonSystemLonger(after, j, i);
      NonSystemHasNone(after);
      assert LeftBehind(after)[j] in NonSystem(after, RoleOf);
    } else {
      NonSystemPrefix(after, i + 1);
      assert LeftBehind(after)[i] == NonSystem(after, RoleOf)[..i + 1][i] == after[i];
    }
  }

  // ---------- What a fold does, message by message ----------

  /** A non-empty text part of a system message. */
  predicate SystemText(ms: seq<Message>, at: (nat, nat)) {
    && at.0 < |ms| && ms[at.0].role == "system" && at.1 < |ms[at.0].content|
    && match ms[at.0].content[at.1] case TextPart(text) => text != "" case ImagePart(_) => false
  }

  /** All the system texts, in order. */
  ghost predicate TextsAt(ms: seq<Message>, places: seq<(nat, nat)>, texts: seq<string>) {
    && |texts| == |places| && InOrder(places)
    && (forall at: (nat, nat) :: at in places <==> SystemText(ms, at))
    && forall k :: 0 <= k < |places| ==> TextAt(ms, places[k], texts[k])
  }

  predicate TextAt(ms: seq<Message>, at: (nat, nat), text: string) {
    at.0 < |ms| && at.1 < |ms[at.0].content| && ms[at.0].content[at.1] == TextPart(text)
  }

  /** The messages that are not system messages, in order. */
  ghost predicate KeptAt(ms: seq<Message>, kept: seq<nat>) {
    && Rising(kept) && forall k: nat :: k in kept <==> k < |ms| && ms[k].role != "system"
  }

  /** The content with the system text in front: joined to a single text, and a part of its own otherwise. */
  predicate InFront(system: string, content: seq<Part>, after: seq<Part>) {
    if |content| == 1 && content[0].TextPart? then after == [TextPart(system + "\n\n" + content[0].text)]
    else |after| == |content| + 1 && after[0] == TextPart(system) && after[1..] == content
  }

  /** The places found before the j-th part of the i-th message. */
  ghost predicate Found(ms: seq<Message>, places: seq<(nat, nat)>, texts: seq<string>, i: nat, j: nat) {
    && |texts| == |places| && InOrder(places)
    && (forall at: (nat, nat) :: at in places <==> SystemText(ms, at) && Earlier(at, (i, j)))
    && forall k :: 0 <= k < |places| ==> TextAt(ms, places[k], texts[k])
  }

  lemma FoundMore(ms: seq<Message>, places: seq<(nat, nat)>, texts: seq<string>, i: nat, j: nat)
    requires i < |ms| && ms[i].role == "system" && j < |ms[i].content| && Found(ms, places, texts, i, j)
    ensures match ms[i].content[j]
      case TextPart(t) => if t != "" then Found(ms, places + [(i, j)], texts + [t], i, j + 1)
                          else Found(ms, places, texts, i, j + 1)
      case ImagePart(_) => Found(ms, places, texts, i, j + 1)
  {
    assert forall at: (nat, nat) :: Earlier(at, (i, j + 1)) <==> Earlier(at, (i, j)) || at == (i, j);
    assert forall k :: 0 <= k < |places| ==> places[k] in places;
  }

  lemma {:induction false} TextsInMessage(
    ms: seq<Message>, before: seq<(nat, nat)>, texts: seq<string>, i: nat, j: nat) returns (places: seq<(nat, nat)>)
    requires i < |ms| && ms[i].role == "system" && j <= |ms[i].content| && Found(ms, before, texts, i, 0)
    ensures Found(ms, places, texts + NonEmptyTexts(ms[i].content[..j]), i, j)
    decreases j
  {
    hide Found;
    if j == 0 {
      places := before;
      assert texts + NonEmptyTexts(ms[i].content[..0]) == texts;
    } else {
      places := TextsInMessage(ms, before, texts, i, j - 1);
      assert ms[i].content[..j][..j - 1] == ms[i].content[..j - 1];
      var found := texts + NonEmptyTexts(ms[i].content[..j - 1]);
      FoundMore(ms, places, found, i, j - 1);
      var p := ms[i].content[j - 1];
      if p.TextPart? && p.text != "" {
        assert found + [p.text] == texts + NonEmptyTexts(ms[i].content[..j]);
        places := places + [(i, j - 1)];
      } else {
        assert found == texts + NonEmptyTexts(ms[i].content[..j]);
      }
    }
  }

  lemma NextMessage(ms: seq<Message>, places: seq<(nat, nat)>, texts: seq<string>, i: nat, j: nat)
    requires i < |ms| && Found(ms, places, texts, i, j)
    requires if ms[i].role == "system" then j == |ms[i].content| else j == 0
    ensures Found(ms, places, texts, i + 1, 0)
  {
    assert forall at: (nat, nat) :: SystemText(ms, at) ==> (Earlier(at, (i + 1, 0)) <==> Earlier(at, (i, j)));
  }

  lemma {:induction false} TextsFound(ms: seq<Message>, i: nat) returns (places: seq<(nat, nat)>)
    requires i <= |ms|
    ensures Found(ms, places, SystemTexts(ms[..i]), i, 0)
  {
    if i == 0 {
      places := [];
    } else {
      hide Found;
      places := TextsFound(ms, i - 1);
      var texts := SystemTexts(ms[..i - 1]);
      assert ms[..i][..i - 1] == ms[..i - 1];
      var m := ms[i - 1];
      if m.role == "system" {
        places := TextsInMessage(ms, places, texts, i - 1, |m.content|);
        assert m.content[..|m.content|] == m.content;
        NextMessage(ms, places, texts + NonEmptyTexts(m.content), i - 1, |m.content|);
      } else {
        assert texts + [] == texts;
        NextMessage(ms, places, texts, i - 1, 0);
      }
    }
  }

  lemma KeptMore(ms: seq<Message>, m: Message, kept: seq<nat>)
    requires KeptAt(ms, kept)
    ensures KeptAt(ms + [m], if m.role != "system" then kept + [|ms|] else kept)
  {
    RisingMore(kept, |ms|);
    hide Rising;
    var more := ms + [m];
    forall k: nat
      ensures k < |more| && more[k].role != "system" <==> k in kept || (k == |ms| && m.role != "system")
    {
      assert k < |ms| ==> more[k] == ms[k];
    }
  }

  lemma NonSystemSnoc(ms: seq<Message>, m: Message)
    ensures NonSystem(ms + [m], RoleOf) == if m.role != "system" then NonSystem(ms, RoleOf) + [m]
      else NonSystem(ms, RoleOf)
  {
    assert (ms + [m])[..|ms|] == ms;
  }

  lemma NothingKept()
    ensures KeptAt([], []) && NonSystem([], RoleOf) == []
  {
  }

  /** The places of the kept messages, in a list and in any other with the same roles. */
  lemma {:induction false} KeptPlaces(ms: seq<Message>, edited: seq<Message>) returns (kept: seq<nat>)
    requires |edited| == |ms| && forall k :: 0 <= k < |ms| ==> edited[k].role == ms[k].role
    ensures KeptAt(ms, kept) && (forall i :: 0 <= i < |kept| ==> kept[i] < |ms|)
    ensures NonSystem(edited, RoleOf) == Taken(edited, kept)
  {
    hide KeptAt, NonSystem, Taken, RoleOf;
    if |ms| == 0 {
      NothingKept();
      kept := [];
      assert ms == [] && edited == [];
    } else {
      var n := |ms| - 1;
      assert ms == ms[..n] + [ms[n]] && edited == edited[..n] + [edited[n]];
      kept := KeptPlaces(ms[..n], edited[..n]);
      KeptMore(ms[..n], ms[n], kept);
      TakenMore(edited[..n], edited[n], kept);
      NonSystemSnoc(edited[..n], edited[n]);
      if ms[n].role != "system" {
        kept := kept + [n];
      }
    }
  }

  /**
   What a fold makes of any conversation. Without a system text or without a user message nothing changes. Otherwise
   the messages that are not system messages stay, in order, and all of them as they are but for the first user
   message: its content has in front all system texts, a blank line between each two.
   */
  lemma FoldMeaning(ms: seq<Message>) returns (places: seq<(nat, nat)>, texts: seq<string>, kept: seq<nat>)
    ensures TextsAt(ms, places, texts) && KeptAt(ms, kept)
    ensures (texts == [] || forall k :: 0 <= k < |ms| ==> ms[k].role != "user") ==> Folded(ms) == ms
    ensures texts != [] && (exists k :: 0 <= k < |ms| && ms[k].role == "user") ==>
      && |Folded(ms)| == |kept|
      && forall k :: 0 <= k < |kept| ==>
           && kept[k] < |ms|
           && FoldedMessage(ms, kept[k], Separated(texts, "\n\n"), Folded(ms)[k])
  {
    hide SystemTexts, Separated, NonSystem, Found, TextsAt, Prefixed, InFront, KeptAt;
    texts := SystemTexts(ms);
    places := FoundTexts(ms);
    JoinSeparates(texts, "\n\n");
    if texts != [] && exists k :: 0 <= k < |ms| && ms[k].role == "user" {
      var i := FirstUser(ms);
      var edited := ms[i := ms[i].(content := Prefixed(ms[i].content, Prefix(ms)))];
      kept := KeptPlaces(ms, edited);
      PrefixGoesInFront(ms[i].content, Prefix(ms));
    } else {
      kept := KeptPlaces(ms, ms);
    }
  }

  lemma FoundTexts(ms: seq<Message>) returns (places: seq<(nat, nat)>)
    ensures TextsAt(ms, places, SystemTexts(ms))
  {
    places := TextsFound(ms, |ms|);
    assert ms[..|ms|] == ms;
    assert forall at: (nat, nat) :: SystemText(ms, at) ==> Earlier(at, (|ms|, 0));
  }

  lemma PrefixGoesInFront(content: seq<Part>, prefix: string)
    ensures InFront(prefix, content, Prefixed(content, prefix))
  {
  }

  /** One message after the fold. */
  ghost predicate FoldedMessage(ms: seq<Message>, k: nat, system: string, after: Message)
    requires k < |ms|
  {
    if ms[k].role == "user" && forall j :: 0 <= j < k ==> ms[j].role != "user"
    then after == ms[k].(content := after.content) && InFront(system, ms[k].content, after.content)
    else after == ms[k]
  }

  // ---------- Two folds in a row ----------

  /** A fold seen from outside: what is sent and what the caller is left with, however content arrays are shared. */
  ghost predicate FoldStep(before: seq<Message>, sent: seq<Message>, left: seq<Message>) {
    if Exits(before) then sent == before && left == before else
    exists edited :: Edit(before, edited) && sent == NonSystem(edited, RoleOf) && left == LeftBehind(edited)
  }

  /** Roles stay, and the first user message has the prefix. */
  ghost predicate Edit(before: seq<Message>, edited: seq<Message>)
    requires !Exits(before)
  {
    && |edited| == |before|
    && (forall k :: 0 <= k < |before| ==> edited[k].role == before[k].role)
    && edited[FirstUser(before)].content == Prefixed(before[FirstUser(before)].content, Prefix(before))
  }

  lemma {:induction false} NonSystemCount(ms: seq<Message>)
    ensures |NonSystem(ms, RoleOf)| == |ms| ==> forall m :: m in ms ==> m.role != "system"
  {
    if |ms| == 0 {
    } else {
      NonSystemCount(ms[..|ms| - 1]);
      assert forall m :: m in ms <==> m in ms[..|ms| - 1] || m == ms[|ms| - 1];
    }
  }

  lemma {:induction false} NonSystemConcat(a: seq<Message>, b: seq<Message>)
    ensures NonSystem(a + b, RoleOf) == NonSystem(a, RoleOf) + NonSystem(b, RoleOf)
  {
    if |b| == 0 {
      assert a + b == a;
    } else {
      assert (a + b)[..|a + b| - 1] == a + b[..|b| - 1];
      NonSystemConcat(a, b[..|b| - 1]);
    }
  }

  lemma {:induction false} NonSystemRoles(a: seq<Message>, b: seq<Message>)
    requires |a| == |b| && forall k :: 0 <= k < |a| ==> a[k].role == b[k].role
    ensures |NonSystem(a, RoleOf)| == |NonSystem(b, RoleOf)|
  {
    if |a| == 0 {
    } else {
      NonSystemRoles(a[..|a| - 1], b[..|b| - 1]);
    }
  }

  lemma RoleIs(m: Message)
    ensures RoleOf(m) == m.role
  {
  }

  lemma {:induction false} NonSystemIdempotent(ms: seq<Message>)
    requires forall m :: m in ms ==> m.role != "system"
    ensures NonSystem(ms, RoleOf) == ms
  {
    if |ms| == 0 {
    } else {
      var init, m := ms[..|ms| - 1], ms[|ms| - 1];
      assert ms == init + [m];
      assert forall n :: n in init ==> n in ms;
      hide RoleOf;
      NonSystemIdempotent(init);
      assert m in ms && RoleOf(m) == m.role by {
        RoleIs(m);
      }
    }
  }

  lemma SomeSystem(ms: seq<Message>)
    requires !Exits(ms)
    ensures exists m :: m in ms && m.role == "system"
  {
    if forall m :: m in ms ==> m.role != "system" {
      NoSystemNoTexts(ms);
      assert false;
    }
  }

  /** The fold of what an earlier fold left never sends what the earlier one sent. */
  lemma FoldsDiffer(before: seq<Message>, sent: seq<Message>, left: seq<Message>, again: seq<Message>,
      rest: seq<Message>)
    requires !Exits(before) && FoldStep(before, sent, left) && FoldStep(left, again, rest)
    ensures again != sent
  {
    var edited :| Edit(before, edited) && sent == NonSystem(edited, RoleOf) && left == LeftBehind(edited);
    var m := |sent|;
    KeptAreFewer(before, edited);
    assert left == sent + edited[m..];
    NonSystemHasNone(edited);
    NonSystemIdempotent(sent);
    NonSystemConcat(sent, edited[m..]);
    if !Exits(left) {
      var second :| Edit(left, second) && again == NonSystem(second, RoleOf) && rest == LeftBehind(second);
      NonSystemRoles(second, left);
      if NonSystem(edited[m..], RoleOf) == [] {
        SecondEdit(sent, edited[m..], second);
      }
    }
  }

  lemma KeptAreFewer(before: seq<Message>, edited: seq<Message>)
    requires !Exits(before) && Edit(before, edited)
    ensures |NonSystem(edited, RoleOf)| < |edited|
  {
    SomeSystem(before);
    NonSystemCount(edited);
    var m :| m in before && m.role == "system";
    var k :| 0 <= k < |before| && before[k] == m;
    assert edited[k] in edited && edited[k].role == "system";
  }

  lemma AllSystem(ms: seq<Message>)
    requires NonSystem(ms, RoleOf) == []
    ensures forall k :: 0 <= k < |ms| ==> ms[k].role == "system"
  {
    NonSystemHasNone(ms);
    forall k | 0 <= k < |ms|
      ensures ms[k].role == "system"
    {
      assert ms[k] in ms;
    }
  }

  /** When only system messages follow, the second prefix shows in the first user message. */
  lemma SecondEdit(sent: seq<Message>, tail: seq<Message>, second: seq<Message>)
    requires (forall m :: m in sent ==> m.role != "system") && NonSystem(tail, RoleOf) == []
    requires !Exits(sent + tail) && Edit(sent + tail, second)
    ensures NonSystem(second, RoleOf) != sent
  {
    var left := sent + tail;
    var i := FirstUser(left);
    AllSystem(tail);
    assert forall k :: |sent| <= k < |left| ==> left[k] == tail[k - |sent|];
    assert i < |sent|;
    forall k | 0 <= k <= i
      ensures second[k].role != "system"
    {
      assert left[k] == sent[k] && sent[k] in sent;
    }
    NonSystemPrefix(second, i + 1);
    SystemTextsNonEmpty(left);
    JoinNonEmpty(SystemTexts(left), "\n\n");
    PrefixedDiffers(left[i].content, Prefix(left));
    assert NonSystem(second, RoleOf)[i] == NonSystem(second, RoleOf)[..i + 1][i] == second[i];
    assert left[i] == sent[i];
  }

  /** The conversation is as it was, and everything so far was right. */
  ghost predicate Untouched(v: seq<Message>, systems: seq<bool>, sent: seq<seq<Message>>, view: seq<Message>,
      whole: bool) {
    |sent| == |systems| && view == v && whole && (Exits(v) || AllTrue(systems)) && SentRight(v, systems, sent)
  }

  /** The last attempt folded for the first time. */
  ghost predicate Folding(v: seq<Message>, systems: seq<bool>, sent: seq<seq<Message>>, view: seq<Message>) {
    var n := |systems|;
    && |sent| == n && !Exits(v) && n > 0 && AllTrue(systems[..n - 1]) && !systems[n - 1] && SentRight(v, systems, sent)
    && FoldStep(v, Folded(v), view)
  }

  /** Some attempt before the last folded, and something wrong was sent. */
  ghost predicate Spoiled(v: seq<Message>, systems: seq<bool>, sent: seq<seq<Message>>) {
    var n := |systems|;
    |sent| == n && !Exits(v) && n > 0 && !AllTrue(systems[..n - 1]) && !SentRight(v, systems, sent)
  }

  ghost predicate RunState(v: seq<Message>, systems: seq<bool>, sent: seq<seq<Message>>, view: seq<Message>,
      whole: bool) {
    Untouched(v, systems, sent, view, whole) || Folding(v, systems, sent, view) || Spoiled(v, systems, sent)
  }

  predicate AllTrue(bs: seq<bool>) {
    forall i :: 0 <= i < |bs| ==> bs[i]
  }

  ghost predicate SentRight(v: seq<Message>, systems: seq<bool>, sent: seq<seq<Message>>)
    requires |sent| == |systems|
  {
    forall i :: 0 <= i < |systems| ==> sent[i] == FirstSent(v, systems[i])
  }

  lemma SentRightMeaning(v: seq<Message>, systems: seq<bool>, sent: seq<seq<Message>>)
    requires |sent| == |systems|
    ensures SentRight(v, systems, sent) <==> forall t :: 0 <= t < |systems| ==> sent[t] == FirstSent(v, systems[t])
  {
  }

  lemma NothingSent(v: seq<Message>, view: seq<Message>, whole: bool)
    requires view == v && whole
    ensures RunState(v, [], [], view, whole)
  {
  }

  lemma RightSnoc(v: seq<Message>, systems: seq<bool>, sent: seq<seq<Message>>, system: bool, more: seq<Message>)
    requires |sent| == |systems|
    ensures SentRight(v, systems + [system], sent + [more]) <==>
      SentRight(v, systems, sent) && more == FirstSent(v, system)
    ensures AllTrue(systems + [system]) <==> AllTrue(systems) && system
    ensures (systems + [system])[..|systems|] == systems
  {
    hide FirstSent;
    var ss, ms := systems + [system], sent + [more];
    assert forall i :: 0 <= i < |systems| ==> ss[i] == systems[i] && ms[i] == sent[i];
    assert ss[|systems|] == system && ms[|systems|] == more;
  }

  lemma RunStep(
    v: seq<Message>, systems: seq<bool>, sent: seq<seq<Message>>, view: seq<Message>, whole: bool,
    system: bool, more: seq<Message>, after: seq<Message>, wholeAfter: bool)
    requires RunState(v, systems, sent, view, whole)
    requires if system then more == view && after == view else FoldStep(view, more, after)
    requires !system && whole ==> more == Folded(view)
    requires system || Exits(view) ==> after == view && (whole ==> wholeAfter)
    ensures RunState(v, systems + [system], sent + [more], after, wholeAfter)
  {
    hide FoldStep, Exits, Folded, SentRight;
    RightSnoc(v, systems, sent, system, more);
    LastTrue(systems);
    if Folding(v, systems, sent, view) {
      StepIsVisible(v, Folded(v), view);
      if !system {
        FoldsDiffer(v, Folded(v), view, more, after);
      }
    }
  }

  lemma LastTrue(bs: seq<bool>)
    ensures |bs| > 0 ==> (AllTrue(bs) <==> AllTrue(bs[..|bs| - 1]) && bs[|bs| - 1])
  {
    if |bs| > 0 {
      assert bs == bs[..|bs| - 1] + [bs[|bs| - 1]];
    }
  }

  /** Seen at the end of a run. */
  lemma RunEnd(v: seq<Message>, systems: seq<bool>, sent: seq<seq<Message>>, view: seq<Message>, whole: bool)
    requires RunState(v, systems, sent, view, whole)
    ensures |sent| == |systems|
    ensures SentRight(v, systems, sent) <==> Exits(v) || forall t :: 0 <= t < |systems| - 1 ==> systems[t]
  {
    hide FoldStep, Exits, SentRight;
    LastTrue(systems);
  }

  lemma StepIsVisible(before: seq<Message>, sent: seq<Message>, left: seq<Message>)
    requires !Exits(before) && FoldStep(before, sent, left)
    ensures left != before
  {
    var edited :| Edit(before, edited) && sent == NonSystem(edited, RoleOf) && left == LeftBehind(edited);
    FoldIsVisible(before, edited);
  }

  // ---------- The fold on the shared array ----------

  /** A message in memory. */
  datatype Cell = Cell(role: string, content: array<Part>, name: string, toolCallId: string, toolCalls: seq<ToolCall>)

  function CellRole(c: Cell): string {
    c.role
  }

  /** The part of a request the fold sees: a slice, that is an array and a length. Copying a request copies this. */
  datatype Request = Request(model: string, messages: array<Cell>, length: nat)

  ghost predicate Fits(r: Request) {
    r.length <= r.messages.Length
  }

  ghost function Value(c: Cell): Message
    reads c.content
  {
    Message(c.role, c.content[..], c.name, c.toolCallId, c.toolCalls)
  }

  ghost function Contents(cells: seq<Cell>): set<array<Part>> {
    set c | c in cells :: c.content
  }

  ghost function Values(cells: seq<Cell>): (v: seq<Message>)
    reads Contents(cells)
    ensures |v| == |cells|
    ensures forall i :: 0 <= i < |cells| ==> v[i] == Value(cells[i])
  {
    if |cells| == 0 then [] else Values(cells[..|cells| - 1]) + [Value(cells[|cells| - 1])]
  }

  ghost function Cells(r: Request): (cells: seq<Cell>)
    requires Fits(r)
    reads r.messages
    ensures |cells| == r.length
  {
    r.messages[..r.length]
  }

  /** The conversation that a holder of the request sees. */
  ghost function View(r: Request): (v: seq<Message>)
    requires Fits(r)
    reads r.messages, Contents(Cells(r))
    ensures |v| == r.length
  {
    Values(Cells(r))
  }

  lemma {:induction false} ValuesNonSystem(cells: seq<Cell>)
    ensures forall c :: c in NonSystem(cells, CellRole) ==> c in cells
    ensures Values(NonSystem(cells, CellRole)) == NonSystem(Values(cells), RoleOf)
  {
    if |cells| == 0 {
    } else {
      var init, c := cells[..|cells| - 1], cells[|cells| - 1];
      ValuesNonSystem(init);
      assert Values(cells)[..|cells| - 1] == Values(init);
      var kept := NonSystem(init, CellRole);
      assert (kept + [c])[..|kept|] == kept;
    }
  }

  /** The texts of all system messages. */
  method CollectSystem(r: Request) returns (sys: seq<string>)
    requires Fits(r)
    ensures sys == SystemTexts(View(r))
  {
    sys := [];
    ghost var v := View(r);
    var i := 0;
    while i < r.length
      invariant 0 <= i <= r.length && View(r) == v
      invariant sys == SystemTexts(v[..i])
    {
      assert v[..i + 1][..i] == v[..i];
      assert v[i] == Value(r.messages[i]);
      if r.messages[i].role == "system" {
        var texts := CollectTexts(r.messages[i].content);
        sys := sys + texts;
      } else {
        assert sys + [] == sys;
      }
      i := i + 1;
    }
    assert v[..i] == v;
  }

  method CollectTexts(content: array<Part>) returns (texts: seq<string>)
    ensures texts == NonEmptyTexts(content[..])
  {
    texts := [];
    var i := 0;
    while i < content.Length
      invariant 0 <= i <= content.Length
      invariant texts == NonEmptyTexts(content[..i])
    {
      assert content[..i + 1][..i] == content[..i];
      if content[i].TextPart? && content[i].text != "" {
        texts := texts + [content[i].text];
      }
      i := i + 1;
    }
    assert content[..i] == content[..];
  }

  method FindUser(r: Request) returns (i: nat)
    requires Fits(r)
    ensures i == FirstUser(View(r))
  {
    i := 0;
    while i < r.length
      invariant 0 <= i <= r.length
      invariant forall j :: 0 <= j < i ==> r.messages[j].role != "user"
    {
      if r.messages[i].role == "user" {
        FirstUserIs(View(r), i);
        return;
      }
      i := i + 1;
    }
    assert forall j :: 0 <= j < r.length ==> View(r)[j].role == r.messages[j].role;
  }

  lemma FirstUserIs(v: seq<Message>, i: nat)
    requires i < |v| && v[i].role == "user" && forall j :: 0 <= j < i ==> v[j].role != "user"
    ensures FirstUser(v) == i
  {
  }

  /** Whether message j sees the edit made to message i: it is that message, or its text sits in the same array. */
  ghost predicate Sees(r: Request, i: nat, j: nat)
    requires Fits(r) && i < r.length && j < r.length
    reads r.messages, Contents(Cells(r))
  {
    j == i ||
    var c := r.messages[i].content;
    (assert r.messages[i] in Cells(r); c.Length == 1 && c[0].TextPart? && r.messages[j].content == c)
  }

  /** The conversation after the edit, before any message is removed. */
  ghost function Edited(r: Request, i: nat, prefix: string): (v: seq<Message>)
    requires Fits(r) && i < r.length
    reads r.messages, Contents(Cells(r))
    ensures |v| == r.length
  {
    var before := View(r);
    seq(r.length, j requires 0 <= j < r.length && Fits(r) && |before| == r.length && i < r.length
      reads r.messages, Contents(Cells(r)) =>
      if Sees(r, i, j) then before[j].(content := Prefixed(before[i].content, prefix)) else before[j])
  }

  /** The text is prefixed in the message's own array when that holds a single text, and in a new array otherwise. */
  method PrefixUser(r: Request, i: nat, prefix: string)
    requires Fits(r) && i < r.length
    modifies r.messages, r.messages[i].content
    ensures View(r) == old(Edited(r, i, prefix))
    ensures if old(r.messages[i].content.Length == 1 && r.messages[i].content[0].TextPart?)
      then r.messages[i].content == old(r.messages[i].content) else fresh(r.messages[i].content)
    ensures r.messages[r.length..] == old(r.messages[r.length..])
    ensures forall c :: c in Cells(r) ==> fresh(c.content) || c.content in old(Contents(Cells(r)))
  {
    var c := r.messages[i].content;
    ghost var before := View(r);
    ghost var cells := Cells(r);
    assert cells[i] in cells;
    if c.Length == 1 && c[0].TextPart? {
      c[0] := TextPart(prefix + "\n\n" + c[0].text);
      assert c[..] == Prefixed(before[i].content, prefix);
    } else {
      var longer := new Part[c.Length + 1]((k: nat) requires k <= c.Length reads c =>
        if k == 0 then TextPart(prefix) else c[k - 1]);
      assert longer[..] == Prefixed(before[i].content, prefix);
      r.messages[i] := r.messages[i].(content := longer);
    }
  }

  /** out := req.Messages[:0] and appends: the kept cells move to the front of the same array. */
  method FilterInPlace(r: Request) returns (k: nat)
    requires Fits(r)
    modifies r.messages
    ensures k == |NonSystem(old(Cells(r)), CellRole)|
    ensures r.messages[..k] == NonSystem(old(Cells(r)), CellRole)
    ensures r.messages[k..] == old(r.messages[k..])
  {
    ghost var cells := r.messages[..];
    k := 0;
    var j := 0;
    while j < r.length
      invariant 0 <= k <= j <= r.length
      invariant r.messages[..k] == NonSystem(cells[..j], CellRole)
      invariant r.messages[k..] == cells[k..]
    {
      var m := r.messages[j];
      assert m == r.messages[k..][j - k] == cells[j];
      assert cells[..j + 1][..j] == cells[..j];
      if m.role != "system" {
        r.messages[k] := m;
        k := k + 1;
        assert r.messages[..k] == r.messages[..k - 1] + [m];
      } else {
        assert r.messages[..k] + [] == r.messages[..k];
      }
      j := j + 1;
    }
    assert cells[..j] == Cells(r) || j == r.length;
  }

  /** The same array seen through the filtered length and through the caller's. */
  lemma FilteredViews(cells: seq<Cell>, after: seq<Cell>, v: seq<Message>)
    requires v == Values(cells) && |after| == |cells|
    requires var kept := NonSystem(cells, CellRole); after == kept + cells[|kept|..]
    ensures Values(NonSystem(cells, CellRole)) == NonSystem(v, RoleOf)
    ensures Values(after) == LeftBehind(v)
  {
    hide Values, NonSystem, Value;
    ValuesNonSystem(cells);
    var kept := NonSystem(cells, CellRole);
    assert |NonSystem(v, RoleOf)| == |kept|;
    forall i | 0 <= i < |after|
      ensures Values(after)[i] == LeftBehind(v)[i]
    {
      if i < |kept| {
        assert Values(kept)[i] == Value(kept[i]);
      }
    }
  }

  method FilterViews(r: Request) returns (out: Request)
    requires Fits(r)
    modifies r.messages
    ensures out == r.(length := out.length) && out.length <= r.length
    ensures View(out) == NonSystem(old(View(r)), RoleOf) && View(r) == LeftBehind(old(View(r)))
    ensures forall c :: c in Cells(r) ==> c in old(Cells(r))
  {
    hide Values, NonSystem, LeftBehind;
    ghost var cells, v := Cells(r), View(r);
    var k := FilterInPlace(r);
    out := r.(length := k);
    var kept := NonSystem(cells, CellRole);
    assert Cells(out) == kept;
    assert Cells(r) == kept + cells[k..];
    ValuesNonSystem(cells);
    assert Values(cells) == v;
    FilteredViews(cells, Cells(r), v);
  }

  /** The steps of the fold once there is something to fold and a message to fold it into. */
  method EditAndFilter(r: Request, i: nat, prefix: string) returns (out: Request)
    requires Fits(r) && i < r.length
    modifies r.messages, Contents(Cells(r))
    ensures out == r.(length := out.length) && out.length <= r.length
    ensures View(out) == NonSystem(old(Edited(r, i, prefix)), RoleOf)
    ensures View(r) == LeftBehind(old(Edited(r, i, prefix)))
    ensures forall c :: c in Cells(r) ==> fresh(c.content) || c.content in old(Contents(Cells(r)))
  {
    assert r.messages[i] in Cells(r);
    PrefixUser(r, i, prefix);
    out := FilterViews(r);
  }

  /**
   The whole fold. The result is the kept part of the edited conversation; the caller, who still holds the old
   length, sees that part followed by the old tail.
   */
  method FoldSystemIntoUser(r: Request) returns (out: Request)
    requires Fits(r)
    modifies r.messages, Contents(Cells(r))
    ensures out.messages == r.messages && out.model == r.model && out.length <= r.length
    ensures Exits(old(View(r))) ==> out == r && r.messages[..] == old(r.messages[..]) && View(r) == old(View(r))
    ensures !Exits(old(View(r))) ==>
      var i := FirstUser(old(View(r)));
      var edited := old(Edited(r, FirstUser(View(r)), Prefix(View(r))));
      View(out) == NonSystem(edited, RoleOf) && View(r) == LeftBehind(edited)
    ensures forall c :: c in Cells(r) ==> fresh(c.content) || c.content in old(Contents(Cells(r)))
  {
    hide Values, NonSystem, LeftBehind, Edited, SystemTexts, FirstUser, Join;
    var sys := CollectSystem(r);
    if |sys| == 0 {
      return r;
    }
    var prefix := Join(sys, "\n\n");
    var i := FindUser(r);
    if i == r.length {
      return r;
    }
    out := EditAndFilter(r, i, prefix);
  }

  /** No two messages share a content array, as in every freshly parsed request. */
  ghost predicate Unshared(r: Request)
    requires Fits(r)
    reads r.messages
  {
    forall i, j :: 0 <= i < j < r.length ==> r.messages[i].content != r.messages[j].content
  }

  /** For an unshared request the edited conversation is the old one with only the user message changed. */
  lemma UnsharedEdit(r: Request, i: nat, prefix: string)
    requires Fits(r) && i < r.length && Unshared(r)
    ensures var v := View(r); Edited(r, i, prefix) == v[i := v[i].(content := Prefixed(v[i].content, prefix))]
  {
  }

  /**
   prepareReq: a copy of the request header for one channel, folded when the channel's model takes no system
   messages.
   */
  method PrepareReq(r: Request, modelName: string, system: bool) returns (ir: Request)
    requires Fits(r)
    modifies r.messages, Contents(Cells(r))
    ensures ir.model == modelName && ir.messages == r.messages && Fits(ir)
    ensures system ==> View(ir) == old(View(r))
    ensures !system && old(Unshared(r)) ==> View(ir) == Folded(old(View(r)))
    ensures View(r) == old(View(r)) <==> system || Exits(old(View(r)))
    ensures system || Exits(old(View(r))) ==> r.messages[..] == old(r.messages[..])
    ensures if system then View(r) == old(View(r)) else FoldStep(old(View(r)), View(ir), View(r))
    ensures forall c :: c in Cells(r) ==> fresh(c.content) || c.content in old(Contents(Cells(r)))
  {
    hide Values, NonSystem, LeftBehind, SystemTexts, FirstUser, Join, Prefixed, Edited;
    ir := r.(model := modelName);
    assert Cells(ir) == Cells(r);
    if !system {
      ghost var v := View(ir);
      if !Exits(v) {
        if Unshared(r) {
          UnsharedEdit(ir, FirstUser(v), Prefix(v));
        }
        EditKeepsRoles(ir, FirstUser(v), Prefix(v));
        FoldIsVisible(v, Edited(ir, FirstUser(v), Prefix(v)));
      }
      ghost var copy := ir;
      ir := FoldSystemIntoUser(ir);
      assert Cells(copy) == Cells(r);
    }
  }

  lemma EditKeepsRoles(r: Request, i: nat, prefix: string)
    requires Fits(r) && i < r.length
    ensures var v, e := View(r), Edited(r, i, prefix);
      && (forall k :: 0 <= k < r.length ==> e[k].role == v[k].role)
      && e[i].content == Prefixed(v[i].content, prefix)
  {
  }

  /** What a first attempt sends. */
  function FirstSent(ms: seq<Message>, system: bool): seq<Message> {
    if system then ms else Folded(ms)
  }

  /**
   A retry sends what a first attempt on its channel would have sent exactly when the attempt before it was on a
   channel that takes system messages, or there was nothing to fold.
   */
  method Retry(r: Request, first: string, system1: bool, second: string, system2: bool) returns (ir: Request)
    requires Fits(r) && Unshared(r)
    modifies r.messages, Contents(Cells(r))
    ensures Fits(ir) && ir.model == second
    ensures View(ir) == FirstSent(old(View(r)), system2) <==> system1 || Exits(old(View(r)))
  {
    hide Folded, Exits, Values;
    ghost var before := View(r);
    var sent := PrepareReq(r, first, system1);
    ghost var left := View(r);
    ghost var firstSent := View(sent);
    ir := PrepareReq(r, second, system2);
    if !system1 && !Exits(before) {
      if !system2 {
        FoldsDiffer(before, firstSent, left, View(ir), View(r));
      }
    }
  }

  /** What every attempt of a run sends: all of them what a first attempt would, exactly under the same condition. */
  method PrepareAll(r: Request, model: string, systems: seq<bool>) returns (ghost sent: seq<seq<Message>>)
    requires Fits(r) && Unshared(r)
    modifies r.messages, Contents(Cells(r))
    ensures |sent| == |systems|
    ensures (forall t :: 0 <= t < |systems| ==> sent[t] == FirstSent(old(View(r)), systems[t])) <==>
      Exits(old(View(r))) || forall t :: 0 <= t < |systems| - 1 ==> systems[t]
  {
    hide Folded, Exits, Values, View, RunState, FoldStep, FirstSent, SentRight;
    ghost var v := View(r);
    sent := [];
    NothingSent(v, v, Unshared(r));
    for i := 0 to |systems|
      invariant |sent| == i && systems[..0] == []
      invariant forall c :: c in Cells(r) ==> fresh(c.content) || c.content in old(Contents(Cells(r)))
      invariant RunState(v, systems[..i], sent, View(r), Unshared(r))
    {
      ghost var before, whole := View(r), Unshared(r);
      var ir := PrepareReq(r, model, systems[i]);
      sent := sent + [View(ir)];
      assert systems[..i + 1] == systems[..i] + [systems[i]];
      assert sent[..i] + [View(ir)] == sent;
      RunStep(v, systems[..i], sent[..i], before, whole, systems[i], View(ir), View(r), Unshared(r));
    }
    assert systems[..|systems|] == systems;
    RunEnd(v, systems, sent, View(r), Unshared(r));
    SentRightMeaning(v, systems, sent);
  }

  /**
   In a conversation `[user, system]` the system message survives in the caller's array, and a retry folds it in
   again.
   */
  lemma TrailingSystemIsFoldedTwice(u: Message, s: Message, system: string, text: string)
    requires s.role == "system" && s.content == [TextPart(system)] && system != ""
    requires u.role == "user" && u.content == [TextPart(text)]
    ensures var once := u.(content := [TextPart(system + "\n\n" + text)]);
      var twice := u.(content := [TextPart(system + "\n\n" + (system + "\n\n" + text))]);
      && Folded([u, s]) == [once]
      && LeftBehind([once, s]) == [once, s]
      && Folded(LeftBehind([once, s])) == [twice]
  {
    FoldTrailing(u, s, system, text);
    var once := u.(content := [TextPart(system + "\n\n" + text)]);
    KeepFirst(once, s);
    FoldTrailing(once, s, system, system + "\n\n" + text);
  }

  /** In a conversation `[system, user]` the caller's array holds the user message twice, and a retry sends it twice. */
  lemma LeadingSystemDoublesTheUser(s: Message, u: Message, system: string, text: string)
    requires s.role == "system" && s.content == [TextPart(system)] && system != ""
    requires u.role == "user" && u.content == [TextPart(text)]
    ensures var once := u.(content := [TextPart(system + "\n\n" + text)]);
      && Folded([s, u]) == [once]
      && LeftBehind([s, once]) == [once, once]
      && Folded(LeftBehind([s, once])) == [once, once]
  {
    var once := u.(content := [TextPart(system + "\n\n" + text)]);
    var v := [s, u];
    assert v[..1] == [s] && [s][..0] == [] && s.content[..0] == [];
    assert NonEmptyTexts(s.content) == [system];
    assert SystemTexts([s]) == [system] && SystemTexts(v) == SystemTexts([s]) + [];
    FirstUserIs(v, 1);
    assert v[1 := once] == [s, once];
    assert [s, once][..1] == [s] && NonSystem([s], RoleOf) == [];
    assert NonSystem([s, once], RoleOf) == [once];
    assert [s, once][1..] == [once];
    NoSystemNoTexts([once, once]);
  }

  lemma KeepFirst(u: Message, s: Message)
    requires u.role != "system" && s.role == "system"
    ensures NonSystem([u, s], RoleOf) == [u]
  {
    assert [u, s][..1] == [u] && [u][..0] == [];
  }

  lemma FoldTrailing(u: Message, s: Message, system: string, text: string)
    requires s.role == "system" && s.content == [TextPart(system)] && system != ""
    requires u.role == "user" && u.content == [TextPart(text)]
    ensures Folded([u, s]) == [u.(content := [TextPart(system + "\n\n" + text)])]
  {
    var v := [u, s];
    assert v[..1] == [u] && [u][..0] == [];
    assert s.content[..0] == [];
    assert NonEmptyTexts(s.content) == [system];
    assert SystemTexts([u]) == [];
    assert SystemTexts(v) == [system];
    FirstUserIs(v, 0);
    KeepFirst(u.(content := [TextPart(system + "\n\n" + text)]), s);
    assert v[0 := u.(content := [TextPart(system + "\n\n" + text)])]
        == [u.(content := [TextPart(system + "\n\n" + text)]), s];
  }
}
