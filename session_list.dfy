/**
 * The per-session decisions taken when the session list at the top of the
 * portal page is rebuilt: whether a session is blocked by an overlay and
 * what it says, which icon represents the session type, and which session
 * data the connect and delete controls carry.
 */
module SessionList {
  import opened Wrappers

  /** One remote session as the session service lists it. */
  datatype Session = Session(id: string, name: string, sessionType: string,
                             status: string, connectURL: string)

  /** The one status in which a session is not blocked. */
  const Running: string := "Running"

  /** The path of the Jupyter logo below the application's base URL. */
  const JupyterLogoPath: string := "/science-portal/images/jupyterLogo.jpg"

  /** The path of the CARTA logo below the application's base URL. */
  const CartaLogoPath: string := "/science-portal/images/cartaLogo.png"

  /** The blocking overlay of a session: present, with the status as its text, iff the session is not Running. */
  function Overlay(s: Session): (r: Option<string>)
    ensures r.Some? <==> s.status != Running
    ensures r.Some? ==> r.value == s.status
  {
    if s.status != Running then Some(s.status) else None
  }

  /** The icons a session can get. */
  datatype IconKind = JupyterLogo | DesktopGlyph | CartaLogo | CubeGlyph

  /** The icon chosen for a session type: three known types, the cube for every other one. */
  function IconKindFor(sessionType: string): (k: IconKind)
    ensures k == JupyterLogo <==> sessionType == "notebook"
    ensures k == DesktopGlyph <==> sessionType == "desktop"
    ensures k == CartaLogo <==> sessionType == "carta"
    ensures k == CubeGlyph <==> sessionType != "notebook" && sessionType != "desktop" && sessionType != "carta"
  {
    if sessionType == "notebook" then JupyterLogo
    else if sessionType == "desktop" then DesktopGlyph
    else if sessionType == "carta" then CartaLogo
    else CubeGlyph
  }

  /** An icon element: an `<img>` with a source and a class, or an `<i>` glyph with a class. */
  datatype Icon = Img(src: string, cssClass: string) | Glyph(cssClass: string)

  /** The element drawn for each icon kind. */
  function IconElement(baseURL: string, k: IconKind): Icon {
    match k
    case JupyterLogo => Img(baseURL + JupyterLogoPath, "sp-icon-img")
    case DesktopGlyph => Glyph("fas fa-desktop sp-icon-desktop")
    case CartaLogo => Img(baseURL + CartaLogoPath, "sp-icon-img")
    case CubeGlyph => Glyph("fas fa-cube sp-icon-desktop")
  }

  /** Different icon kinds are drawn as different elements, whatever the base URL. */
  lemma IconElementsDistinct(baseURL: string, k1: IconKind, k2: IconKind)
    requires k1 != k2
    ensures IconElement(baseURL, k1) != IconElement(baseURL, k2)
  {
    if {k1, k2} == {JupyterLogo, CartaLogo} {
      var n := |baseURL|;
      assert (baseURL + JupyterLogoPath)[n + 23] == JupyterLogoPath[23] == 'j';
      assert (baseURL + CartaLogoPath)[n + 23] == CartaLogoPath[23] == 'c';
    }
  }

  /** The data the connect anchor carries to the connect handler. */
  datatype ConnectAnchor = ConnectAnchor(connectURL: string, status: string, id: string, name: string)

  /** The data the delete button carries to the delete handler. */
  datatype DeleteButton = DeleteButton(id: string, name: string)

  /** What one list item shows and carries. */
  datatype SessionView = SessionView(
    overlay: Option<string>,
    title: string,
    deleteButton: DeleteButton,
    anchor: ConnectAnchor,
    icon: Icon,
    typeLabel: string)

  /** The list item built for one session. */
  function ViewOf(baseURL: string, s: Session): SessionView {
    SessionView(
      Overlay(s),
      s.name,
      DeleteButton(s.id, s.name),
      ConnectAnchor(s.connectURL, s.status, s.id, s.name),
      IconElement(baseURL, IconKindFor(s.sessionType)),
      s.sessionType)
  }

  /**
   * The session a list item stands for: id, name, status and connect URL read
   * back from the connect anchor's data, the type from the visible type label.
   */
  function SessionOf(v: SessionView): Session {
    Session(v.anchor.id, v.anchor.name, v.typeLabel, v.anchor.status, v.anchor.connectURL)
  }

  /** The list built from a session list: one item per session, in order. */
  function RenderSessions(baseURL: string, sessions: seq<Session>): seq<SessionView> {
    seq(|sessions|, i requires 0 <= i < |sessions| => ViewOf(baseURL, sessions[i]))
  }

  /**
   * Each list item carries its session's data unchanged: the connect and
   * delete controls act on the session itself, and the item is blocked with
   * the status as text iff that session is not Running.
   */
  lemma RenderedItemsFaithful(baseURL: string, sessions: seq<Session>)
    ensures var r := RenderSessions(baseURL, sessions);
      && |r| == |sessions|
      && forall i :: 0 <= i < |sessions| ==>
           && SessionOf(r[i]) == sessions[i]
           && r[i].deleteButton == DeleteButton(sessions[i].id, sessions[i].name)
           && (r[i].overlay.Some? <==> sessions[i].status != Running)
           && (r[i].overlay.Some? ==> r[i].overlay.value == sessions[i].status)
  {
  }

  /** Two items look the same only when their sessions have the same type and status. */
  lemma ViewSeparatesTypesAndStatus(baseURL: string, s1: Session, s2: Session)
    requires ViewOf(baseURL, s1).icon == ViewOf(baseURL, s2).icon
    requires ViewOf(baseURL, s1).overlay == ViewOf(baseURL, s2).overlay
    ensures IconKindFor(s1.sessionType) == IconKindFor(s2.sessionType)
    ensures s1.status != Running || s2.status != Running ==> s1.status == s2.status
  {
    if IconKindFor(s1.sessionType) != IconKindFor(s2.sessionType) {
      IconElementsDistinct(baseURL, IconKindFor(s1.sessionType), IconKindFor(s2.sessionType));
    }
  }
}
