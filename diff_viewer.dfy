/** Opening a migration diff in the chosen viewer (utils/diffViewer.go). The viewer is the
    configuration's editor setting. */
module DiffViewer {
  /** A terminal tool runs attached and is waited for; a GUI viewer is started detached. */
  datatype Mode = Attached | Detached

  datatype Launch = Launch(program: string, args: seq<string>, mode: Mode)

  /** The viewers with a case of their own; anything else falls back to git. */
  const GuiViewers: set<string> := {"zed", "vscode", "meld"}

  /** The process OpenDiff starts for two files and their display labels. Only git, the
      terminal fallback, is waited for, and both files are always passed. */
  function OpenDiff(file1: string, file2: string, label1: string, label2: string, editor: string): (r: Launch)
    ensures r.mode == Attached <==> r.program == "git"
    ensures r.program in {"zed", "code", "meld", "git"}
    ensures file1 in r.args && file2 in r.args
  {
    match editor
    case "zed" => Launch("zed", ["--diff", file1, file2], Detached)
    case "vscode" => Launch("code", ["--diff", file1, file2], Detached)
    case "meld" => Launch("meld", [file1, "--label", label1, file2, "--label", label2], Detached)
    case _ => Launch("git", ["diff", "--no-index", file1, file2], Attached)
  }

  /** The git fallback, which every unrecognised setting (the empty one included) gets. */
  function GitDiff(file1: string, file2: string): Launch {
    Launch("git", ["diff", "--no-index", file1, file2], Attached)
  }

  /** Only the GUI viewers are detached; every other setting runs git attached. */
  lemma DetachedExactlyForGuiViewers(file1: string, file2: string, label1: string, label2: string, editor: string)
    ensures OpenDiff(file1, file2, label1, label2, editor).mode == Detached <==> editor in GuiViewers
    ensures editor !in GuiViewers ==> OpenDiff(file1, file2, label1, label2, editor) == GitDiff(file1, file2)
  {
  }

  /** The labels reach only meld: for every other viewer they make no difference. */
  lemma LabelsOnlyForMeld(file1: string, file2: string, label1: string, label2: string,
                          other1: string, other2: string, editor: string)
    requires editor != "meld"
    ensures OpenDiff(file1, file2, label1, label2, editor) == OpenDiff(file1, file2, other1, other2, editor)
  {
  }

  /** Whatever the viewer, both files are passed, the first before the second, with the second
      as the argument list's last file. */
  lemma FilesInOrder(file1: string, file2: string, label1: string, label2: string, editor: string)
    ensures var a := OpenDiff(file1, file2, label1, label2, editor).args;
      exists i, j :: 0 <= i < j < |a| && a[i] == file1 && a[j] == file2
  {
    var a := OpenDiff(file1, file2, label1, label2, editor).args;
    if editor == "meld" {
      assert a[0] == file1 && a[3] == file2;
    } else if editor in GuiViewers {
      assert a[1] == file1 && a[2] == file2;
    } else {
      assert a[2] == file1 && a[3] == file2;
    }
  }
}
