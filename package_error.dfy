/** packages/middlewares/src/error.ts, as an instance of the error-boundary model. */
module PackageError {
  import opened Js
  import opened Koa
  import ErrorBoundary

  /** `error(options)` with its `options` merged over the defaults. */
  method Error(ctx: Context, o: ErrorBoundary.ErrorOptions, nodeEnv: string, next: Snapshot -> Downstream)
    returns (logged: seq<string>, escaped: bool)
    modifies ctx
    ensures var d := next(old(ctx.View()));
      (d.thrown.None? ==> ctx.View() == d.view && logged == [] && !escaped) &&
      (d.thrown.Some? ==>
        ErrorBoundary.Caught(d.view, d.thrown.value, o.showDetailsInDev && nodeEnv == "development") ==
          (if escaped then ErrorBoundary.Escaped(ctx.View()) else ErrorBoundary.Answered(ctx.View())) &&
        logged == (if o.logErrors then [ErrorBoundary.LogLine(d.view, d.thrown.value)] else []))
  {
    logged, escaped := ErrorBoundary.Error(ctx, o, nodeEnv, next);
  }
}
