/** The older diff-viewer dispatch left at the top of the repository (diffViewer.go): same
    viewers, no labels, and every viewer run attached with its outcome ignored. */
module LegacyDiffViewer {
  import opened DiffViewer

  /** Every viewer runs attached, and both files are always passed. */
  function LegacyOpenDiff(file1: string, file2: string, editor: string): (r: Launch)
    ensures r.mode == Attached
    ensures file1 in r.args && file2 in r.args
  {
    match editor
    case "zed" => Launch("zed", ["--diff", file1, file2], Attached)
    case "vscode" => Launch("code", ["--diff", file1, file2], Attached)
    case "meld" => Launch("meld", [file1, file2], Attached)
    case _ => Launch("git", ["diff", "--no-index", file1, file2], Attached)
  }

  /** The two dispatches start the same program for every setting. Apart from meld they pass the
      same arguments, and only the mode differs. For meld the old one passes just the two files,
      which is the new argument list without its label pairs. */
  lemma AgreesWithOpenDiff(file1: string, file2: string, label1: string, label2: string, editor: string)
    ensures var legacy := LegacyOpenDiff(file1, file2, editor);
      var current := OpenDiff(file1, file2, label1, label2, editor);
      legacy.program == current.program &&
      (editor != "meld" ==> legacy.args == current.args) &&
      (editor == "meld" ==> legacy.args == [current.args[0], current.args[3]])
    ensures editor !in GuiViewers ==> LegacyOpenDiff(file1, file2, editor) == GitDiff(file1, file2)
  {
  }
}
