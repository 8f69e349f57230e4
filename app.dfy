/**
 * App's state: the open tab, the session on screen and the history of
 * completed sessions, with the handlers that change them and the
 * `renderContent` routing.
 */
module App {
  import opened Wrappers
  import opened AuditTypes

  datatype Tab = AuditTab | AnalyticsTab | HistoryTab | RulesTab

  /** What `renderContent` shows. */
  datatype View =
    | DashboardView(session: Session)
    | AnalyticsView(history: seq<Session>)
    | HistoryView(history: seq<Session>)
    | RulesView
    | LandingView

  /** The dashboard only for a current session on the audit tab; otherwise by tab. */
  function RenderContent(session: Option<Session>, tab: Tab, history: seq<Session>): (r: View)
    ensures r.DashboardView? <==> session.Some? && tab == AuditTab
    ensures r.DashboardView? ==> r.session == session.value
    ensures r.LandingView? <==> session.None? && tab == AuditTab
    ensures tab == AnalyticsTab ==> r == AnalyticsView(history)
    ensures tab == HistoryTab ==> r == HistoryView(history)
    ensures tab == RulesTab ==> r == RulesView
  {
    if session.Some? && tab == AuditTab then DashboardView(session.value)
    else match tab
      case AnalyticsTab => AnalyticsView(history)
      case HistoryTab => HistoryView(history)
      case RulesTab => RulesView
      case AuditTab => LandingView
  }

  class AppState {
    var currentTab: Tab
    var currentSession: Option<Session>
    var history: seq<Session>

    constructor()
      ensures currentTab == AuditTab && currentSession.None? && history == []
    {
      currentTab := AuditTab;
      currentSession := None;
      history := [];
    }

    /** What the main area shows for the current state. */
    function Render(): (r: View)
      reads this
      ensures r.DashboardView? <==> currentSession.Some? && currentTab == AuditTab
      ensures r.DashboardView? ==> r.session == currentSession.value
      ensures r.LandingView? <==> currentSession.None? && currentTab == AuditTab
    {
      RenderContent(currentSession, currentTab, history)
    }

    /** `handleAuditComplete`: show the session and put it at the front of the history. */
    method HandleAuditComplete(session: Session)
      modifies this`currentSession, this`history
      ensures currentSession == Some(session)
      ensures history == [session] + old(history)
    {
      currentSession := Some(session);
      history := [session] + history;
    }

    /** `resetAudit`. */
    method ResetAudit()
      modifies this`currentSession
      ensures currentSession.None?
    {
      currentSession := None;
    }

    /** The header's `onTabChange`, and the history view's `onNavigate`. */
    method SetCurrentTab(tab: Tab)
      modifies this`currentTab
      ensures currentTab == tab
    {
      currentTab := tab;
    }

    /** The header's `onResetHome`: back to the landing page. */
    method OnResetHome()
      modifies this`currentSession, this`currentTab
      ensures currentSession.None? && currentTab == AuditTab
      ensures Render() == LandingView
    {
      ResetAudit();
      SetCurrentTab(AuditTab);
    }

    /** The history view's `onSelect`. */
    method SelectSession(session: Session)
      modifies this`currentSession
      ensures currentSession == Some(session)
    {
      currentSession := Some(session);
    }

    /** A history row's view button: `onSelect(session)` then `onNavigate()`. */
    method ViewFromHistory(session: Session)
      modifies this`currentSession, this`currentTab
      ensures currentSession == Some(session) && currentTab == AuditTab
      ensures Render() == DashboardView(session)
    {
      SelectSession(session);
      SetCurrentTab(AuditTab);
    }
  }

  /** Completing an audit shows it and keeps every earlier entry, in order, behind it. */
  method CompleteThenBrowse(a: Session, b: Session) {
    var app := new AppState();
    app.HandleAuditComplete(a);
    app.SetCurrentTab(HistoryTab);
    assert app.Render() == HistoryView([a]);
    app.HandleAuditComplete(b);
    assert app.history == [b, a];
    app.ResetAudit();
    app.SetCurrentTab(AuditTab);
    assert app.Render() == LandingView && app.history == [b, a];
    app.ViewFromHistory(a);
    assert app.Render() == DashboardView(a) && app.history == [b, a];
  }
}
