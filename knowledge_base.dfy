/** The fixed knowledge base (backend/internal/kb/kb.go). */
module KnowledgeBase {

  /** One knowledge-base article; its JSON names are `id`, `title` and `content`. */
  datatype Article = Article(id: string, title: string, content: string)

  const PasswordResetContent: string :=
    "To reset your password, go to the login page and click on the 'Forgot Password' link. You will receive an email with instructions on how to set a new password. Make sure to choose a strong password that you haven't used before."

  const VpnContent: string :=
    "If you are having trouble connecting to the company VPN, first ensure you have the latest version of the VPN client installed. Second, check your internet connection to make sure it is stable. If the problem persists, try restarting your computer. Contact IT support if you are still unable to connect."

  const PrinterContent: string :=
    "To set up a new printer, first connect it to the network via an ethernet cable or Wi-Fi. Then, go to your computer's system settings, find the 'Printers & Scanners' section, and click 'Add Printer'. Your computer should automatically detect the printer. If not, you may need to install drivers from the manufacturer's website."

  /**
   * The hard-coded article list, in its fixed order. Being a function, two
   * calls always return equal sequences.
   */
  function GetArticles(): (articles: seq<Article>)
    ensures |articles| == 3
    ensures articles[0].id == "kb-001" && articles[1].id == "kb-002" && articles[2].id == "kb-003"
    ensures forall i :: 0 <= i < |articles| ==>
      articles[i].id != "" && articles[i].title != "" && articles[i].content != ""
    ensures forall i, j :: 0 <= i < j < |articles| ==> articles[i].id != articles[j].id
  {
    assert |PasswordResetContent| > 0 && |VpnContent| > 0 && |PrinterContent| > 0;
    [
      Article("kb-001", "How to reset your password", PasswordResetContent),
      Article("kb-002", "VPN Connection Issues", VpnContent),
      Article("kb-003", "Setting up a new printer", PrinterContent)
    ]
  }
}
