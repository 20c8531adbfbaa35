/**
 * The exercise browser of main_copy.py: `tasks` lists one page of the exercises of
 * the chosen level from the Mongo `tasks` collection as inline buttons,
 * numbered from `offset + 1`, each calling back with that exercise's id.
 */
module Tasks {
  import opened Strings
  import opened Listing

  /** A document of the `tasks` collection as `tasks` reads it; `id` is
      `str(task['_id'])`. */
  datatype Task = Task(id: string, level: int, title: string)

  datatype Button = Button(text: string, callbackData: string)

  /** The `limit` of one page. */
  const PageSize: nat := 10

  /** `find({'level': level})`, in collection order. */
  function AtLevel(tasks: seq<Task>, level: int): (r: seq<Task>)
    ensures |r| <= |tasks|
    ensures forall i :: 0 <= i < |r| ==> r[i] in tasks && r[i].level == level
    ensures forall t :: t in tasks && t.level == level ==> t in r
    decreases |tasks|
  {
    if tasks == [] then []
    else
      var rest := AtLevel(tasks[1..], level);
      assert forall t :: t in tasks[1..] ==> t in tasks;
      assert forall t :: t in tasks ==> t == tasks[0] || t in tasks[1..];
      (if tasks[0].level == level then [tasks[0]] else []) + rest
  }

  /** The query finds every task of the level exactly as often as the
      collection holds it, and no task of another level. */
  lemma {:induction false} AtLevelCounts(tasks: seq<Task>, level: int)
    ensures forall t :: multiset(AtLevel(tasks, level))[t] == if t.level == level then multiset(tasks)[t] else 0
    decreases |tasks|
  {
    if tasks != [] {
      var t0, rest := tasks[0], tasks[1..];
      var head := if t0.level == level then [t0] else [];
      AtLevelCounts(rest, level);
      AtLevelCons(t0, rest, level);
      assert tasks == [t0] + rest;
      assert multiset(tasks) == multiset([t0]) + multiset(rest);
      assert multiset(head + AtLevel(rest, level)) == multiset(head) + multiset(AtLevel(rest, level));
    }
  }

  lemma ConcatAssoc(a: seq<Task>, b: seq<Task>, c: seq<Task>)
    ensures a + (b + c) == (a + b) + c
  {
  }

  lemma AtLevelCons(t: Task, rest: seq<Task>, level: int)
    ensures AtLevel([t] + rest, level) == (if t.level == level then [t] else []) + AtLevel(rest, level)
  {
    assert ([t] + rest)[0] == t && ([t] + rest)[1..] == rest;
  }

  /** The query keeps collection order: finding in two consecutive parts
      of the collection finds the first part's tasks, then the second's. */
  lemma {:induction false} AtLevelAppend(xs: seq<Task>, ys: seq<Task>, level: int)
    ensures AtLevel(xs + ys, level) == AtLevel(xs, level) + AtLevel(ys, level)
    decreases |xs|
  {
    if xs != [] {
      var t, rest := xs[0], xs[1..];
      assert xs == [t] + rest && xs + ys == [t] + (rest + ys);
      AtLevelAppend(rest, ys, level);
      AtLevelCons(t, rest + ys, level);
      AtLevelCons(t, rest, level);
      ConcatAssoc(if t.level == level then [t] else [], AtLevel(rest, level), AtLevel(ys, level));
    } else {
      assert xs + ys == ys;
    }
  }

  /** `.skip(offset).limit(10)`. */
  function Page(tasks: seq<Task>, level: int, offset: nat): (r: seq<Task>)
    ensures |r| <= PageSize
    ensures var found := AtLevel(tasks, level);
      && |r| == (if |found| <= offset then 0 else if |found| - offset < PageSize then |found| - offset else PageSize)
      && (r != [] ==> offset + |r| <= |found| && r == found[offset..offset + |r|])
  {
    var found := AtLevel(tasks, level);
    if |found| <= offset then []
    else found[offset..if offset + PageSize < |found| then offset + PageSize else |found|]
  }

  function Titles(page: seq<Task>): (r: seq<string>)
    ensures |r| == |page| && forall k :: 0 <= k < |page| ==> r[k] == page[k].title
  {
    seq(|page|, k requires 0 <= k < |page| => page[k].title)
  }

  /** The keyboard of one page: a row of one button per task, labelled
      with its number and title. */
  function Keyboard(page: seq<Task>, offset: nat): seq<seq<Button>>
  {
    var captions := Numbered(Titles(page), offset + 1);
    seq(|page|, k requires 0 <= k < |page| => [Button(captions[k], page[k].id)])
  }

  /** The loop of `tasks`: one button row per task of the page, numbered
      from `offset + 1`. */
  method PageButtons(page: seq<Task>, offset: nat) returns (buttons: seq<seq<Button>>)
    ensures buttons == Keyboard(page, offset)
  {
    ghost var keyboard := Keyboard(page, offset);
    buttons := [];
    for k := 0 to |page|
      invariant |buttons| == k
      invariant forall j :: 0 <= j < k ==> buttons[j] == keyboard[j]
    {
      var task := page[k];
      var caption := Decimal(offset + 1 + k) + ". " + task.title;
      assert Titles(page)[k] == task.title;
      assert keyboard[k] == [Button(caption, task.id)];
      buttons := buttons + [[Button(caption, task.id)]];
    }
  }

  /** `tasks`: the query, then the page's buttons. */
  method TaskButtons(tasks: seq<Task>, level: int, offset: nat) returns (buttons: seq<seq<Button>>)
    ensures buttons == Keyboard(Page(tasks, level, offset), offset)
  {
    var page := Page(tasks, level, offset);
    buttons := PageButtons(page, offset);
  }

  /** A page holds at most ten buttons, the k-th numbered `offset + 1 + k`
      and calling back with the k-th task of the level after `offset`. */
  lemma KeyboardNumbering(tasks: seq<Task>, level: int, offset: nat)
    ensures var page := Page(tasks, level, offset);
      var rows: seq<seq<Button>> := Keyboard(page, offset);
      && |rows| <= PageSize
      && forall k :: 0 <= k < |rows| ==>
           && rows[k][0].text == Decimal(offset + 1 + k) + ". " + AtLevel(tasks, level)[offset + k].title
           && rows[k][0].callbackData == AtLevel(tasks, level)[offset + k].id
  {
    var found := AtLevel(tasks, level);
    var page := Page(tasks, level, offset);
    var rows: seq<seq<Button>> := Keyboard(page, offset);
    forall k | 0 <= k < |rows|
      ensures rows[k][0].text == Decimal(offset + 1 + k) + ". " + found[offset + k].title
      ensures rows[k][0].callbackData == found[offset + k].id
    {
      assert page[k] == found[offset + k];
      assert Titles(page)[k] == found[offset + k].title;
    }
  }

  /** Two pages read one after the other are numbered as one list: the
      second page carries on where the first stopped. */
  lemma PagesContinue(tasks: seq<Task>, level: int, offset: nat)
    requires |Page(tasks, level, offset)| == PageSize
    ensures var first := Page(tasks, level, offset);
      var second := Page(tasks, level, offset + PageSize);
      Numbered(Titles(first), offset + 1) + Numbered(Titles(second), offset + PageSize + 1)
        == Numbered(Titles(first + second), offset + 1)
  {
    var first := Page(tasks, level, offset);
    var second := Page(tasks, level, offset + PageSize);
    assert Titles(first + second) == Titles(first) + Titles(second);
    NumberedAppend(Titles(first), Titles(second), offset + 1);
  }
}
