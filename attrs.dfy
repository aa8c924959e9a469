/** The ReplaceAttr hook New installs in the text handler. The handler calls it on every
    non-group attribute of a record, and on every member of a group attribute instead of on
    the group; the hook rewrites the level-keyed ones into the logger's own labels. */
module Attrs {
  import opened Levels

  /** slog.LevelKey, the key of the built-in level attribute. */
  const LevelKey: string := "level"

  /** An attribute value, as far as the hook looks into it: a level, a string, a group of
      attributes, or a value of another kind the model does not inspect. */
  datatype Value =
    | LevelValue(level: Level)
    | StringValue(str: string)
    | GroupValue(members: seq<Attr>)
    | OtherValue(id: nat)

  datatype Attr = Attr(key: string, value: Value)

  /** What the hook does with one attribute. The type assertion on the value of a level-keyed
      attribute panics when that value is not a Level. */
  datatype Replaced = Replaced(attr: Attr) | TypeAssertionPanic

  /** The label written for a level: TRACE and FATAL from LevelMap, every other level as
      slog's Level.String() renders it (passed in as levelString, which the model does not
      interpret). */
  function LevelLabel(levelString: Level -> string, l: Level): (name: string)
    ensures l == LevelTrace ==> name == "TRACE"
    ensures l == LevelFatal ==> name == "FATAL"
    ensures l != LevelTrace && l != LevelFatal ==> name == levelString(l)
  {
    if l == LevelTrace || l == LevelFatal then LevelMap()[l] else levelString(l)
  }

  /** An attribute on which the hook's type assertion fails: keyed "level" but not holding a
      Level. Any attribute of a record can be one, not only the built-in level attribute. */
  predicate Rejected(a: Attr)
  {
    a.key == LevelKey && !a.value.LevelValue?
  }

  /** The handler's walk over one attribute reaches a failing type assertion: a group is
      never handed to the hook itself, whatever its key, but each of its members is, at any
      depth, and the hook ignores the group path. */
  predicate HandlerRejects(a: Attr)
    decreases a
  {
    match a.value
    case GroupValue(members) => exists i :: 0 <= i < |members| && HandlerRejects(members[i])
    case _ => Rejected(a)
  }

  /** On every attribute it is handed, the handler panics exactly when the hook does. */
  lemma HandlerRejectsIsHookPanic(levelString: Level -> string, groups: seq<string>, a: Attr)
    requires !a.value.GroupValue?
    ensures HandlerRejects(a) <==> ReplaceAttr(levelString, groups, a).TypeAssertionPanic?
  {
  }

  /** A group never panics on its own account, whatever its key (even "level"): when none of
      its members panics, neither does the group, since the hook never sees the group itself. */
  lemma GroupKeyIgnored(k: string, members: seq<Attr>)
    requires forall i :: 0 <= i < |members| ==> !HandlerRejects(members[i])
    ensures !HandlerRejects(Attr(k, GroupValue(members)))
  {
  }

  /** A member keyed "level" whose value is neither a Level nor a group panics, inside a group
      of any key and at any position among the group's members. */
  lemma NestedLevelRejected(k: string, members: seq<Attr>, i: nat)
    requires i < |members|
    requires members[i].key == LevelKey
    requires !members[i].value.LevelValue? && !members[i].value.GroupValue?
    ensures HandlerRejects(Attr(k, GroupValue(members)))
  {
    assert HandlerRejects(members[i]);
  }

  /** The ReplaceAttr callback. The group path is not consulted. The handler never calls it
      on a group-valued attribute (HandlerRejects). */
  function ReplaceAttr(levelString: Level -> string, groups: seq<string>, a: Attr): (r: Replaced)
    ensures a.key != LevelKey ==> r == Replaced(a)
    ensures a.key == LevelKey && a.value.LevelValue? ==>
              r.Replaced? && r.attr.key == a.key && r.attr.value.StringValue? &&
              (a.value.level == LevelTrace ==> r.attr.value.str == "TRACE") &&
              (a.value.level == LevelFatal ==> r.attr.value.str == "FATAL") &&
              (a.value.level != LevelTrace && a.value.level != LevelFatal ==>
                 r.attr.value.str == levelString(a.value.level))
    ensures r.TypeAssertionPanic? <==> Rejected(a)
  {
    if a.key == LevelKey then
      match a.value
      case LevelValue(l) => Replaced(Attr(a.key, StringValue(LevelLabel(levelString, l))))
      case _ => TypeAssertionPanic
    else
      Replaced(a)
  }
}
