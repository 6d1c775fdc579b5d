/** Splitting the command line (index.js lines 12-13): every argument that
    starts with `-` is an option, and the project name is the first argument
    that does not. */
module Argv {
  import opened Fields

  /** `/^-/.test(arg)` */
  predicate IsOption(arg: string)
  {
    |arg| > 0 && arg[0] == '-'
  }

  /** `argv.filter(arg => /^-/.test(arg) == dash)`: the arguments on one side
      of the split, in their original order. */
  function Select(argv: seq<string>, dash: bool): seq<string>
  {
    if argv == [] then []
    else if IsOption(argv[0]) == dash then [argv[0]] + Select(argv[1..], dash)
    else Select(argv[1..], dash)
  }

  function Options(argv: seq<string>): seq<string>
  {
    Select(argv, true)
  }

  /** `argv.filter(arg => !/^-/.test(arg)).shift()` */
  function Repo(argv: seq<string>): Option<string>
  {
    var rest := Select(argv, false);
    if rest == [] then None else Some(rest[0])
  }

  /** Filtering distributes over concatenation: each argument is classified
      on its own, so the relative order of the kept arguments is the order of
      `argv`. Together with `SelectSingle` this pins `Select` down exactly. */
  lemma {:induction false} SelectAppend(a: seq<string>, b: seq<string>, dash: bool)
    ensures Select(a + b, dash) == Select(a, dash) + Select(b, dash)
  {
    if a == [] {
      assert a + b == b;
    } else {
      assert (a + b)[1..] == a[1..] + b;
      SelectAppend(a[1..], b, dash);
    }
  }

  lemma SelectSingle(arg: string, dash: bool)
    ensures Select([arg], dash) == if IsOption(arg) == dash then [arg] else []
  {
  }

  /** The options are exactly the dash-prefixed arguments. */
  lemma {:induction false} OptionsMembers(argv: seq<string>, x: string)
    ensures x in Options(argv) <==> x in argv && IsOption(x)
  {
    if argv != [] {
      OptionsMembers(argv[1..], x);
      assert argv == [argv[0]] + argv[1..];
    }
  }

  /** No argument is lost or duplicated by the split. */
  lemma {:induction false} SplitIsPartition(argv: seq<string>)
    ensures multiset(Select(argv, true)) + multiset(Select(argv, false)) == multiset(argv)
  {
    if argv != [] {
      SplitIsPartition(argv[1..]);
      assert argv == [argv[0]] + argv[1..];
    }
  }

  /** The project name is the first argument that is not an option, and
      there is none exactly when every argument is an option. */
  lemma {:induction false} RepoIsFirstNonOption(argv: seq<string>)
    ensures Repo(argv).None? <==> forall i :: 0 <= i < |argv| ==> IsOption(argv[i])
    ensures Repo(argv).Some? ==>
      exists i :: 0 <= i < |argv| && argv[i] == Repo(argv).value && !IsOption(argv[i]) &&
        forall j :: 0 <= j < i ==> IsOption(argv[j])
  {
    if argv != [] {
      RepoIsFirstNonOption(argv[1..]);
      if IsOption(argv[0]) {
        assert Repo(argv) == Repo(argv[1..]);
        if Repo(argv).Some? {
          var i :| 0 <= i < |argv[1..]| && argv[1..][i] == Repo(argv).value && !IsOption(argv[1..][i]) &&
            forall j :: 0 <= j < i ==> IsOption(argv[1..][j]);
          assert forall j :: 0 <= j < i + 1 ==> IsOption(argv[j]) by {
            forall j | 0 <= j < i + 1 ensures IsOption(argv[j]) {
              if j > 0 { assert argv[j] == argv[1..][j - 1]; }
            }
          }
        } else {
          forall i | 0 <= i < |argv| ensures IsOption(argv[i]) {
            if i > 0 { assert argv[i] == argv[1..][i - 1]; }
          }
        }
      }
    }
  }
}
