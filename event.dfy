/**
 * Event types, category bits and the type-matched dispatch of one event to a
 * callback (include/core/event.h).
 */
module Events {

  datatype EventType =
    | NoEvent
    | WindowClose | WindowResize | WindowFocus | WindowLostFocus | WindowMoved
    | AppTick | AppUpdate | AppRender
    | KeyPressed | KeyReleased | KeyTyped
    | MouseButtonPressed | MouseButtonReleased | MouseMoved | MouseScrolled

  /**
   * An `EventCategory` value: a set of category bits. The enumerators span five
   * bits, so a (cast) union of categories is any value below 32.
   */
  type Category = b: bv32 | b < 32

  const NoCategory: Category := 0
  const Application: Category := 1 << 0
  const Input: Category := 1 << 1
  const Keyboard: Category := 1 << 2
  const Mouse: Category := 1 << 3
  const MouseButton: Category := 1 << 4

  /** The named categories, `None` excluded. */
  predicate Named(c: Category)
  {
    c == Application || c == Input || c == Keyboard || c == Mouse || c == MouseButton
  }

  /** `get_category_bit_flag() & category_to_check`, read as a bool. */
  predicate SharesBit(own: Category, query: Category)
  {
    own & query != 0
  }

  /** Each named category is one bit, and two named categories share a bit exactly when they are the same one. */
  lemma NamedCategoriesAreDistinctBits(c: Category, d: Category)
    requires Named(c) && Named(d)
    ensures c != 0 && c & (c - 1) == 0
    ensures SharesBit(c, d) <==> c == d
  {
  }

  /** Nothing is in `None`, and an event whose category is `None` is in no category. */
  lemma NothingSharesNone(c: Category)
    ensures !SharesBit(c, NoCategory) && !SharesBit(NoCategory, c)
  {
  }

  class Event {
    const eventType: EventType
    const category: Category
    var handled: bool

    /** `bool event_is_handled = false`: a new event is unhandled. */
    constructor(t: EventType, c: Category)
      ensures eventType == t && category == c
      ensures !handled
    {
      eventType := t;
      category := c;
      handled := false;
    }

    /**
     * `is_in_category(category_to_check)`: whether the event's category bits and the
     * query share a bit; for a single-category event and a named query, whether they
     * are the same category.
     */
    method IsInCategory(query: Category) returns (r: bool)
      ensures r <==> SharesBit(category, query)
      ensures Named(category) && Named(query) ==> (r <==> category == query)
      ensures query == NoCategory ==> !r
    {
      r := category & query != 0;
      if Named(category) && Named(query) {
        NamedCategoriesAreDistinctBits(category, query);
      }
    }
  }

  /**
   * Routes one event to callbacks. The callback is abstract: any function from
   * the event to "handled?". `calls` logs the handler types whose callback ran.
   */
  class EventRouter {
    const event: Event
    ghost var calls: seq<EventType>

    constructor(e: Event)
      ensures event == e && calls == []
    {
      event := e;
      calls := [];
    }

    /**
     * `match_event_to_fcn<fcn_t, event_class_name>`: `handlerType` stands for
     * `event_class_name::get_class_event_type()`.
     */
    method MatchEventToFcn(handlerType: EventType, callback: Event -> bool) returns (matched: bool)
      modifies this, event
      ensures matched <==> event.eventType == handlerType
      ensures matched ==> event.handled == (old(event.handled) || callback(event))
      ensures matched ==> calls == old(calls) + [handlerType]
      ensures !matched ==> event.handled == old(event.handled) && calls == old(calls)
      ensures old(event.handled) ==> event.handled
    {
      if event.eventType == handlerType {
        var result := callback(event);
        calls := calls + [handlerType];
        event.handled := event.handled || result;
        return true;
      }
      return false;
    }
  }

  /** A caller that offers one event to two handlers: only the one of the right type runs. */
  method DispatchKeyPress(e: Event, onKey: Event -> bool, onMouse: Event -> bool)
      returns (router: EventRouter)
    requires e.eventType == KeyPressed && !e.handled
    modifies e
    ensures fresh(router) && router.event == e
    ensures router.calls == [KeyPressed]
    ensures e.handled == onKey(e)
  {
    router := new EventRouter(e);
    var m1 := router.MatchEventToFcn(MouseMoved, onMouse);
    assert !m1;
    var m2 := router.MatchEventToFcn(KeyPressed, onKey);
    assert m2;
  }
}
