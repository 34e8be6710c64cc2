/** Failure-carrying results shared by both combiners. The error kinds name the
    exceptions the combiners raise (or let escape from the libraries they call). */
module Outcomes {

  datatype Error =
    | MissingLabels     // fit called with y = None
    | InvalidArgument   // empty models / cv_scores, or `len` of weights that are None
    | NotFitted         // predict/transform before fit
    | UnknownLabel      // a label outside the fitted vocabulary
    | EmptyInput        // no calibration samples / no models, so nothing can be encoded or indexed
    | ShapeMismatch     // a prediction row that cannot be split into num_models blocks of num_labels
    | NoCandidates      // max() of an empty list of candidate accuracies
    | TooFewPoints      // a ball-tree query for more neighbours than the tree holds

  datatype Option<+T> = None | Some(value: T)

  datatype Result<+T> = Success(value: T) | Failure(error: Error)

  datatype Status = Ok | Err(error: Error)
}
