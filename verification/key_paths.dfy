/** Key paths and the property name the library derives from their description
    (SwiftFluent/Utilities/KeyPath+Extensions.swift). */
module KeyPaths {
  import opened Wrappers

  /** A Swift `KeyPath<Model, Value>`: the accessor that `model[keyPath: kp]` applies, and the
      text `String(describing: kp)` renders, such as `\User.name`. */
  datatype KeyPath<!M, !V> = KeyPath(get: M -> V, description: string) {

    /** `propertyName`: the last `.`-separated component of the description. */
    function PropertyName(): string {
      PropertyNameOf(description)
    }
  }

  /** `components(separatedBy:)` for a one-character separator: the maximal runs of the
      string between separators, in order; an empty string still has one (empty) component. */
  function Split(s: string, sep: char): (parts: seq<string>)
    ensures |parts| >= 1
    decreases |s|
  {
    if s == [] then [""]
    else
      var rest := Split(s[1..], sep);
      if s[0] == sep then [""] + rest
      else [[s[0]] + rest[0]] + rest[1..]
  }

  /** `joined(separator:)`, the inverse of `Split`. */
  function Join(parts: seq<string>, sep: char): string
    requires |parts| >= 1
  {
    if |parts| == 1 then parts[0] else parts[0] + [sep] + Join(parts[1..], sep)
  }

  /** No component contains the separator. */
  lemma {:induction false} SplitPartsHaveNoSeparator(s: string, sep: char)
    ensures forall i :: 0 <= i < |Split(s, sep)| ==> sep !in Split(s, sep)[i]
    decreases |s|
  {
    if s != [] {
      SplitPartsHaveNoSeparator(s[1..], sep);
      var rest := Split(s[1..], sep);
      if s[0] != sep {
        assert sep !in [s[0]] + rest[0];
      }
    }
  }

  /** The last component is the whole string when it is the only one, and otherwise the
      suffix after a separator. */
  lemma {:induction false} SplitLastIsSuffix(s: string, sep: char)
    ensures var parts := Split(s, sep); var last := parts[|parts| - 1];
            (|parts| == 1 && last == s)
            || (|parts| > 1 && |last| < |s| && last == s[|s| - |last|..] && s[|s| - |last| - 1] == sep)
    decreases |s|
  {
    if s != [] {
      SplitLastIsSuffix(s[1..], sep);
      var rest := Split(s[1..], sep);
      var last := rest[|rest| - 1];
      assert s[1..][|s[1..]| - |last|..] == s[|s| - |last|..];
      if |rest| == 1 {
        assert s == [s[0]] + s[1..];
      }
    }
  }

  /** The step of `SplitJoin` where the first character is not the separator. */
  lemma JoinConsChar(c: char, rest: seq<string>, sep: char)
    requires |rest| >= 1
    ensures Join([[c] + rest[0]] + rest[1..], sep) == [c] + Join(rest, sep)
  {
    var parts := [[c] + rest[0]] + rest[1..];
    assert parts[1..] == rest[1..];
    if |rest| > 1 {
      assert Join(parts, sep) == [c] + rest[0] + [sep] + Join(rest[1..], sep);
    }
  }

  lemma {:induction false} SplitJoin(s: string, sep: char)
    ensures Join(Split(s, sep), sep) == s
    decreases |s|
  {
    if s != [] {
      var rest := Split(s[1..], sep);
      SplitJoin(s[1..], sep);
      if s[0] == sep {
        assert ([""] + rest)[1..] == rest;
        assert Join([""] + rest, sep) == [sep] + s[1..];
      } else {
        JoinConsChar(s[0], rest, sep);
      }
      assert s == [s[0]] + s[1..];
    }
  }

  /** `String(describing: self).components(separatedBy: ".").last ?? "Unknown"`. */
  function PropertyNameOf(description: string): (name: string)
    ensures '.' !in name
    ensures |name| <= |description| && name == description[|description| - |name|..]
    ensures |name| == |description| || description[|description| - |name| - 1] == '.'
    ensures var parts := Split(description, '.'); name == parts[|parts| - 1]
  {
    SplitPartsHaveNoSeparator(description, '.');
    SplitLastIsSuffix(description, '.');
    match Last(Split(description, '.'))
    case Some(last) => last
    case None => assert false; "Unknown"
  }

  /** A description with no `.` is its own property name. */
  lemma NoDotIsWhole(description: string)
    requires '.' !in description
    ensures PropertyNameOf(description) == description
  {
  }

  /** The name is everything after the last `.` of the description. */
  lemma NameFollowsLastDot(description: string, i: nat)
    requires i < |description| && description[i] == '.'
    requires forall j :: i < j < |description| ==> description[j] != '.'
    ensures PropertyNameOf(description) == description[i + 1..]
  {
  }

  /** The name of `owner.name` is `name`, whatever `owner` holds. */
  lemma NameAfterLastDot(owner: string, name: string)
    requires '.' !in name
    ensures PropertyNameOf(owner + "." + name) == name
  {
    var d := owner + "." + name;
    forall j | |owner| < j < |d|
      ensures d[j] != '.'
    {
      assert d[j] == name[j - |owner| - 1];
    }
    NameFollowsLastDot(d, |owner|);
    assert d[|owner| + 1..] == name;
  }

  lemma UserNameExample()
    ensures PropertyNameOf("\\User.name") == "name"
  {
    NameFollowsLastDot("\\User.name", 5);
    assert "\\User.name"[6..] == "name";
  }
}
