// The script of the directory container, word by word: it makes directories and does nothing else.
module DirScript {
  import opened Common
  import opened PodModel

  // The words of a shell script, split at blanks.
  function Words(s: string): (ws: seq<string>)
    ensures |ws| > 0
  {
    if s == "" then [""]
    else
      var ws := Words(s[1..]);
      if s[0] == ' ' then [""] + ws else [[s[0]] + ws[0]] + ws[1..]
  }

  // Nothing in it means anything to a shell.
  predicate IsPlain(word: string) {
    forall c :: c in word ==> 'a' <= c <= 'z' || 'A' <= c <= 'Z' || '0' <= c <= '9' || c in "/-._"
  }

  // mkdir -p <dir> && mkdir -p <dir> && ...
  predicate IsMkdirs(ws: seq<string>) {
    && |ws| >= 3 && ws[0] == "mkdir" && ws[1] == "-p" && IsPlain(ws[2])
    && (|ws| == 3 || (ws[3] == "&&" && IsMkdirs(ws[4..])))
  }

  predicate MakesOnlyDirs(p: Program) {
    p.Argv? && |p.argv| == 3 && p.argv[0] == "/bin/bash" && p.argv[1] == "-c" && IsMkdirs(Words(p.argv[2]))
  }

  lemma {:induction false} WordsConcat(a: string, b: string)
    ensures Words(a + " " + b) == Words(a) + Words(b)
  {
    if a == "" {
      assert (a + " " + b)[1..] == b;
    } else {
      assert (a + " " + b)[1..] == a[1..] + " " + b;
      WordsConcat(a[1..], b);
    }
  }

  lemma {:induction false} OneWord(s: string)
    requires ' ' !in s
    ensures Words(s) == [s]
  {
    if s == "" {
    } else {
      OneWord(s[1..]);
      assert [s[0]] + s[1..] == s;
    }
  }

  lemma WordsAround(a: string, word: string, b: string)
    requires ' ' !in word
    ensures Words(a + (" " + word + " ") + b) == Words(a) + [word] + Words(b)
  {
    assert a + (" " + word + " ") + b == a + " " + (word + " " + b);
    WordsConcat(a, word + " " + b);
    WordsConcat(word, b);
    OneWord(word);
  }

  lemma WordsOfAnd(a: string, b: string)
    ensures Words(a + " && " + b) == Words(a) + ["&&"] + Words(b)
  {
    assert " && " == " " + "&&" + " ";
    WordsAround(a, "&&", b);
  }

  lemma WordsOfMkdir(dir: string)
    requires IsPlain(dir)
    ensures Words(Mkdir(dir)) == ["mkdir", "-p", dir]
  {
    assert Mkdir(dir) == "mkdir" + " " + ("-p" + " " + dir);
    WordsConcat("mkdir", "-p" + " " + dir);
    WordsConcat("-p", dir);
    OneWord("mkdir");
    OneWord("-p");
    OneWord(dir);
  }

  // Appending such commands to a script changes nothing about whether it only makes directories.
  lemma {:induction false} MkdirsAndMkdirs(a: seq<string>, b: seq<string>)
    requires IsMkdirs(b)
    ensures IsMkdirs(a + ["&&"] + b) <==> IsMkdirs(a)
  {
    var all := a + ["&&"] + b;
    if |a| <= 3 {
      assert all[|a|] == "&&" && all[|a| + 1..] == b;
      assert '&' in "&&";
    } else {
      assert all[4..] == a[4..] + ["&&"] + b;
      MkdirsAndMkdirs(a[4..], b);
    }
  }

  lemma PlainConcat(a: string, b: string)
    requires IsPlain(a) && IsPlain(b)
    ensures IsPlain(a + b)
  {
  }

  ghost predicate MakeDirs(cmds: seq<string>) {
    forall cmd :: cmd in cmds ==> IsMkdirs(Words(cmd))
  }

  lemma {:induction false} JoinedMakeDirs(cmds: seq<string>)
    requires cmds != [] && MakeDirs(cmds)
    ensures IsMkdirs(Words(JoinAnd(cmds)))
  {
    if |cmds| == 1 {
    } else {
      JoinedMakeDirs(cmds[1..]);
      WordsOfAnd(cmds[0], JoinAnd(cmds[1..]));
      MkdirsAndMkdirs(Words(cmds[0]), Words(JoinAnd(cmds[1..])));
    }
  }

  lemma MkdirMakesDir(dir: string)
    requires IsPlain(dir)
    ensures IsMkdirs(Words(Mkdir(dir)))
  {
    WordsOfMkdir(dir);
  }

  lemma StateDirsArePlain()
    ensures IsPlain("/vm-state-init/nvram") && IsPlain("/vm-state-init/swtpm")
    ensures IsPlain("/vm-state-init/swtpm-localca")
  {
  }

  lemma ThreeMakeDirs(a: string, b: string, c: string)
    requires IsPlain(a) && IsPlain(b) && IsPlain(c)
    ensures IsMkdirs(Words(JoinAnd([Mkdir(a), Mkdir(b), Mkdir(c)])))
  {
    MkdirMakesDir(a);
    MkdirMakesDir(b);
    MkdirMakesDir(c);
    JoinedMakeDirs([Mkdir(a), Mkdir(b), Mkdir(c)]);
  }

  lemma StateCommandsMakeDirs()
    ensures IsMkdirs(Words(JoinAnd(STATE_COMMANDS)))
  {
    StateDirsArePlain();
    ThreeMakeDirs("/vm-state-init/nvram", "/vm-state-init/swtpm", "/vm-state-init/swtpm-localca");
  }

  // The state stage's extension of the directory container.
  lemma StateDirsOnlyIff(c: Container)
    ensures MakesOnlyDirs(WithStateDirs(c).program) <==> MakesOnlyDirs(c.program)
  {
    if c.program.Argv? && |c.program.argv| == 3 {
      StateCommandsMakeDirs();
      WordsOfAnd(c.program.argv[2], JoinAnd(STATE_COMMANDS));
      MkdirsAndMkdirs(Words(c.program.argv[2]), Words(JoinAnd(STATE_COMMANDS)));
    }
  }

  lemma DirCommandMakesDir(v: Volume)
    requires IsPlain(v.name)
    ensures IsMkdirs(Words(DirCommand(v)))
  {
    PlainConcat("/emptydir/", v.name);
    PlainConcat("/emptydir/" + v.name, "/libvirt/qemu");
    MkdirMakesDir("/emptydir/" + v.name + "/libvirt/qemu");
  }

  // The emitted container makes directories only, volume names being DNS labels.
  lemma DirInitMakesOnlyDirs(vs: seq<Volume>, image: string)
    requires vs != [] && forall v :: v in vs ==> IsPlain(v.name)
    ensures MakesOnlyDirs(DirInit(vs, image).program)
  {
    forall cmd | cmd in DirCommands(vs)
      ensures IsMkdirs(Words(cmd))
    {
      var i :| 0 <= i < |vs| && cmd == DirCommand(vs[i]);
      DirCommandMakesDir(vs[i]);
    }
    JoinedMakeDirs(DirCommands(vs));
  }
}
